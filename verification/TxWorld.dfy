/** All transactions together, on five servers that share their stores. */
module TxWorld {
  import opened Options
  import opened TxStore
  import C = TwoPhase
  import P = TwoPhaseProof
  import R = TxReads
  import L = TxLedger
  import S = TxSystem

  // ------------------------------------------------------------------ the system

  /** Each transaction, under its timestamp, has its own client, coordinator, votes and
      connections; the servers' stores are common to all. */
  datatype World = World(nets: map<Time, C.Net>, stores: seq<Store>)

  /** What one transaction sees of it. */
  function View(w: World, ts: Time): C.Net
    requires ts in w.nets
  {
    w.nets[ts].(stores := w.stores)
  }

  ghost predicate Init(w: World) {
    && w.stores == seq(C.SERVERS, _ => EMPTY)
    && forall ts :: ts in w.nets ==> C.Init(View(w, ts)) && w.nets[ts].ts == ts
  }

  /** One step of one transaction. */
  datatype Move = Move(ts: Time, action: C.Action)

  predicate Step(w: World, m: Move, w': World) {
    && m.ts in w.nets && w'.nets.Keys == w.nets.Keys && !m.action.Elsewhere?
    && C.Step(View(w, m.ts), m.action, View(w', m.ts))
    && forall u :: u in w.nets && u != m.ts ==> w'.nets[u] == w.nets[u]
  }

  datatype Run = Run(states: seq<World>, moves: seq<Move>)

  ghost predicate StepOf(r: Run, k: nat)
    requires k < |r.moves| < |r.states|
  {
    Step(r.states[k], r.moves[k], r.states[k + 1])
  }

  ghost predicate IsRun(r: Run) {
    && |r.states| == |r.moves| + 1
    && Init(r.states[0])
    && forall k {:trigger StepOf(r, k)} :: 0 <= k < |r.moves| ==> StepOf(r, k)
  }

  // -------------------------------------------- the request a step makes of a server

  /** The server a step works at, and what that server is asked to do. */
  datatype Request = Request(server: nat, op: Op)

  function Asked(n: C.Net, a: C.Action): Option<Request>
    requires C.Sized(n)
  {
    match a
    case Asks(r) =>
      (match r
       case Data(b, op) => if b == n.c then Some(Request(b, op)) else None
       case Finish => Some(Request(n.c, Prepare(n.ts)))
       case GiveUp => Some(Request(n.c, Abort(n.ts))))
    case Serves(i) =>
      if i >= C.SERVERS || n.out[i] == [] then None
      else Some(Request(i, match n.out[i][0]
                           case Forward(op) => op
                           case AbortMsg => Abort(n.ts)
                           case PrepareMsg => Prepare(n.ts)
                           case CommitMsg => Commit(n.ts)))
    case Collects(i) =>
      if i >= C.SERVERS || n.back[i] == [] then None
      else if n.back[i][0].Bad? then Some(Request(n.c, Abort(n.ts)))
      else if n.back[i][0].Ready? && n.count + 1 == C.NEEDED then Some(Request(n.c, Commit(n.ts)))
      else None
    case Elsewhere(_, _) => None
  }

  /** No store and no log changes but those of server j. */
  predicate OnlyAt(n: C.Net, n': C.Net, j: nat)
    requires C.Sized(n) && j < C.SERVERS
  {
    && C.Sized(n') && n'.ts == n.ts && n'.c == n.c && n.failed <= n'.failed
    && n'.stores == n.stores[j := n'.stores[j]] && n'.log == n.log[j := n'.log[j]]
  }

  /** No store and no log changes. */
  predicate Nowhere(n: C.Net, n': C.Net)
    requires C.Sized(n)
  {
    C.Sized(n') && n'.ts == n.ts && n'.c == n.c && n'.failed == n.failed && n'.stores == n.stores && n'.log == n.log
  }

  lemma AbortsOnlyAt(n: C.Net, j: nat)
    requires C.Sized(n) && j < C.SERVERS
    ensures OnlyAt(n, C.Aborts(n, j), j)
    ensures j !in C.Aborts(n, j).failed ==>
              Undo(n.stores[j], n.ts) == Some(C.Aborts(n, j).stores[j])
    ensures C.Aborts(n, j).log[j] == n.log[j].(aborts := n.log[j].aborts + 1)
    ensures j !in n.failed && Undo(n.stores[j], n.ts).Some? ==> C.Aborts(n, j).failed == n.failed
  {
  }

  lemma CommitsOnlyAt(n: C.Net, j: nat)
    requires C.Sized(n) && j < C.SERVERS
    ensures OnlyAt(n, C.Commits(n, j), j)
    ensures j !in C.Commits(n, j).failed ==> Settle(n.stores[j], n.ts) == Some(C.Commits(n, j).stores[j])
    ensures C.Commits(n, j).log[j] == n.log[j].(commits := n.log[j].commits + 1)
  {
  }

  lemma TellNowhere(n: C.Net, m: C.Msg)
    requires C.Sized(n)
    ensures Nowhere(n, C.Tell(n, m))
  {
  }

  /** If its call returned, the server served the request, and its log says so. */
  predicate Answers(n: C.Net, n': C.Net, i: nat, op: Op)
    requires C.Sized(n) && C.Sized(n') && i < C.SERVERS
  {
    && op.ts == n.ts && Perform(n.stores[i], op).Some?
    && var (st, out) := Perform(n.stores[i], op).value;
       && n'.stores[i] == st
       && (op.Prepare? ==> n'.log[i].vote == if out.Accepted? then C.Yes else C.No)
       && (!op.Prepare? ==> n'.log[i].vote == n.log[i].vote)
       && (op.Commit? ==> n'.log[i].commits > n.log[i].commits)
       && (out.Failed? ==> n'.log[i].aborts > n.log[i].aborts)
  }

  // ------------------------------------------------- what each handler does there

  /** An operation: Attempt, and DoAbort when that fails. */
  lemma DataAnswers(n: C.Net, n1: C.Net, n': C.Net, i: nat, op: Op)
    requires C.Sized(n) && i < C.SERVERS
    requires var (st, out) := Attempt(n.stores[i], op);
             && OnlyAt(n, n1, i) && n1.stores[i] == st && n1.log == n.log && n1.failed == n.failed
             && Nowhere(if out.Failed? then C.Aborts(n1, i) else n1, n')
    ensures OnlyAt(n, n', i) && (i !in n'.failed && C.Operation(op, n.ts) ==> Answers(n, n', i, op))
  {
    AbortsOnlyAt(n1, i);
  }

  lemma AbortAnswers(n: C.Net, n1: C.Net, n': C.Net, i: nat)
    requires C.Sized(n) && i < C.SERVERS && Nowhere(n, n1) && Nowhere(C.Aborts(n1, i), n')
    ensures OnlyAt(n, n', i) && (i !in n'.failed ==> Answers(n, n', i, Abort(n.ts)))
  {
    AbortsOnlyAt(n1, i);
  }

  lemma CommitAnswers(n: C.Net, n1: C.Net, n': C.Net, i: nat)
    requires C.Sized(n) && i < C.SERVERS && Nowhere(n, n1) && Nowhere(C.Commits(n1, i), n')
    ensures OnlyAt(n, n', i) && (i !in n'.failed ==> Answers(n, n', i, Commit(n.ts)))
  {
    CommitsOnlyAt(n1, i);
  }

  /** A commit check that fails aborts, and its caller then aborts again. */
  lemma PrepareFails(n: C.Net, n1: C.Net, n2: C.Net, n': C.Net, i: nat)
    requires C.Sized(n) && i < C.SERVERS && Nowhere(n, n1) && !Solvent(n.stores[i], n.ts)
    requires var m := C.Aborts(C.Voted(n1, i, C.No), i);
             && Nowhere(m, n2)
             && n' == if Undo(n.stores[i], n.ts).None? then m else C.Aborts(n2, i)
    ensures OnlyAt(n, n', i) && (i !in n'.failed ==> Answers(n, n', i, Prepare(n.ts)))
  {
    var v := C.Voted(n1, i, C.No);
    AbortsOnlyAt(v, i);
    AbortsOnlyAt(n2, i);
  }

  lemma PreparePasses(n: C.Net, n1: C.Net, n': C.Net, i: nat)
    requires C.Sized(n) && i < C.SERVERS && Nowhere(n, n1) && Solvent(n.stores[i], n.ts)
    requires Nowhere(C.Voted(n1, i, C.Yes), n')
    ensures OnlyAt(n, n', i) && Answers(n, n', i, Prepare(n.ts))
  {
  }

  /** A forwarded operation is one of this transaction. */
  predicate Proper(n: C.Net, a: C.Action)
    requires C.Sized(n)
  {
    a.Serves? && a.i < C.SERVERS && n.out[a.i] != [] && n.out[a.i][0].Forward? ==> C.Operation(n.out[a.i][0].op, n.ts)
  }

  /** The step changes nothing at any server, or it works at one, as that is asked to. */
  predicate Works(n: C.Net, a: C.Action, n': C.Net)
    requires C.Sized(n)
  {
    match Asked(n, a)
    case None => Nowhere(n, n')
    case Some(q) =>
      && q.server < C.SERVERS && OnlyAt(n, n', q.server)
      && (q.server !in n'.failed && Proper(n, a) ==> Answers(n, n', q.server, q.op))
      && (q.op.Read? || q.op.Write? ==> S.WorksOn(n, a, q.server, q.op))
  }

  lemma DataWorks(n: C.Net, b: nat, op: Op, n': C.Net)
    requires C.Step(n, C.Asks(C.Data(b, op)), n')
    ensures Works(n, C.Asks(C.Data(b, op)), n')
  {
    if b == n.c {
      var n1 := n.(client := C.Closed, last := C.Data(b, op), stores := n.stores[b := Attempt(n.stores[b], op).0]);
      DataAnswers(n, n1, n', b, op);
    }
  }

  lemma FinishWorks(n: C.Net, n': C.Net)
    requires C.Step(n, C.Asks(C.Finish), n')
    ensures Works(n, C.Asks(C.Finish), n')
  {
    var n0 := n.(client := C.Waiting, last := C.Finish, count := 0);
    if Solvent(n.stores[n.c], n.ts) {
      TellNowhere(C.Voted(n0, n.c, C.Yes), C.PrepareMsg);
      PreparePasses(n, n0, n', n.c);
    } else {
      var m := C.Aborts(C.Voted(n0, n.c, C.No), n.c);
      AbortsOnlyAt(C.Voted(n0, n.c, C.No), n.c);
      TellNowhere(m.(client := C.Closed), C.AbortMsg);
      PrepareFails(n, n0, C.Tell(m.(client := C.Closed), C.AbortMsg), n', n.c);
    }
  }

  lemma GiveUpWorks(n: C.Net, n': C.Net)
    requires C.Step(n, C.Asks(C.GiveUp), n')
    ensures Works(n, C.Asks(C.GiveUp), n')
  {
    var n1 := n.(client := C.Waiting, last := C.GiveUp);
    var m := C.Aborts(n1, n.c);
    AbortsOnlyAt(n1, n.c);
    TellNowhere(m.(client := C.Closed), C.AbortMsg);
    AbortAnswers(n, n1, n', n.c);
  }

  lemma ForwardWorks(n: C.Net, i: nat, n': C.Net, op: Op)
    requires C.Step(n, C.Serves(i), n') && n.out[i][0] == C.Forward(op)
    ensures Works(n, C.Serves(i), n')
  {
    var (st, out) := Attempt(n.stores[i], op);
    var n1 := n.(out := n.out[i := n.out[i][1..]], stores := n.stores[i := st]);
    DataAnswers(n, if out.Failed? then C.Reports(n1, i, C.Bad) else n1, n', i, op);
  }

  lemma ServesWorks(n: C.Net, i: nat, n': C.Net)
    requires C.Step(n, C.Serves(i), n')
    ensures Works(n, C.Serves(i), n')
  {
    var n0 := n.(out := n.out[i := n.out[i][1..]]);
    match n.out[i][0]
    case Forward(op) => ForwardWorks(n, i, n', op);
    case AbortMsg => AbortAnswers(n, n0, n', i);
    case CommitMsg => CommitAnswers(n, n0, n', i);
    case PrepareMsg =>
      if Solvent(n.stores[i], n.ts) {
        PreparePasses(n, n0, n', i);
      } else {
        var m := C.Aborts(C.Voted(n0, i, C.No), i);
        AbortsOnlyAt(C.Voted(n0, i, C.No), i);
        PrepareFails(n, n0, C.Reports(m, i, C.Bad), n', i);
      }
  }

  lemma CollectsWorks(n: C.Net, i: nat, n': C.Net)
    requires C.Step(n, C.Collects(i), n')
    ensures Works(n, C.Collects(i), n')
  {
    var n0 := n.(back := n.back[i := n.back[i][1..]]);
    match n.back[i][0]
    case Good =>
    case Bad =>
      var m := C.Aborts(n0, n.c);
      AbortsOnlyAt(n0, n.c);
      TellNowhere(m.(client := C.Closed), C.AbortMsg);
      AbortAnswers(n, n0, n', n.c);
    case Ready =>
      var n1 := n0.(count := n.count + 1);
      var m := C.Commits(n1, n.c);
      CommitsOnlyAt(n1, n.c);
      TellNowhere(m.(client := C.Closed), C.CommitMsg);
      if n.count + 1 == C.NEEDED {
        CommitAnswers(n, n1, n', n.c);
      }
  }

  lemma StepWorks(n: C.Net, a: C.Action, n': C.Net)
    requires C.Step(n, a, n') && !a.Elsewhere?
    ensures Works(n, a, n')
  {
    match a
    case Asks(r) =>
      match r {
        case Data(b, op) => DataWorks(n, b, op, n');
        case Finish => FinishWorks(n, n');
        case GiveUp => GiveUpWorks(n, n');
      }
    case Serves(i) => ServesWorks(n, i, n');
    case Collects(i) => CollectsWorks(n, i, n');
  }

  /** In the protocol's states a served operation is the transaction's own, and a server
      is asked to vote once. */
  lemma AskedProperly(n: C.Net, a: C.Action, n': C.Net)
    requires C.Inv(n) && C.Step(n, a, n') && Asked(n, a).Some? && Asked(n, a).value.server < C.SERVERS
    ensures var q := Asked(n, a).value; Proper(n, a) && (q.op.Prepare? ==> !n.log[q.server].vote.Yes?)
  {
    if a.Serves? {
      if C.Voting(n) {
        assert C.Participant(n, a.i) ==> C.Stage(n, a.i);
      }
    }
  }

  // ------------------------------------------------- what one transaction sees

  ghost predicate Ok(w: World) {
    |w.stores| == C.SERVERS && forall ts :: ts in w.nets ==> C.Sized(View(w, ts)) && w.nets[ts].ts == ts
  }

  /** The request a move makes. */
  function AskedIn(w: World, m: Move): Option<Request> {
    if m.ts in w.nets && C.Sized(View(w, m.ts)) then Asked(View(w, m.ts), m.action) else None
  }

  /** The move as transaction ts sees it: its own, or another's work at one server. */
  function Seen(w: World, m: Move, w': World, ts: Time): C.Action {
    if m.ts == ts then m.action
    else
      var j := if AskedIn(w, m).Some? then AskedIn(w, m).value.server else 0;
      C.Elsewhere(j, if j < |w'.stores| then w'.stores[j] else EMPTY)
  }

  lemma SeenStep(w: World, m: Move, w': World, ts: Time)
    requires Ok(w) && Step(w, m, w') && ts in w.nets
    ensures C.Step(View(w, ts), Seen(w, m, w', ts), View(w', ts))
    ensures C.Sized(View(w', ts)) && w'.nets[ts].ts == ts && |w'.stores| == C.SERVERS
  {
    StepWorks(View(w, m.ts), m.action, View(w', m.ts));
    assert View(w, m.ts).stores == w.stores && View(w', m.ts).stores == w'.stores;
    if ts != m.ts {
      assert View(w', ts) == View(w, ts).(stores := w'.stores);
    }
  }

  lemma {:induction false} RunOk(r: Run, k: nat)
    requires IsRun(r) && k < |r.states|
    ensures Ok(r.states[k]) && r.states[k].nets.Keys == r.states[0].nets.Keys
  {
    if k > 0 {
      RunOk(r, k - 1);
      assert StepOf(r, k - 1);
      forall ts | ts in r.states[k].nets ensures C.Sized(View(r.states[k], ts)) && r.states[k].nets[ts].ts == ts {
        SeenStep(r.states[k - 1], r.moves[k - 1], r.states[k], ts);
      }
    }
  }

  ghost predicate Has(r: Run, ts: Time) {
    |r.states| == |r.moves| + 1 && forall k :: 0 <= k < |r.states| ==> ts in r.states[k].nets
  }

  lemma RunHas(r: Run, ts: Time)
    requires IsRun(r) && ts in r.states[0].nets
    ensures Has(r, ts)
  {
    forall k | 0 <= k < |r.states| ensures ts in r.states[k].nets {
      RunOk(r, k);
    }
  }

  /** The whole run as transaction ts sees it. */
  ghost function Projected(r: Run, ts: Time): (p: C.Run)
    requires Has(r, ts)
    ensures |p.states| == |r.states| && |p.actions| == |r.moves|
    ensures forall k :: 0 <= k < |r.states| ==> p.states[k] == View(r.states[k], ts)
    ensures forall k :: 0 <= k < |r.moves| ==> p.actions[k] == Seen(r.states[k], r.moves[k], r.states[k + 1], ts)
  {
    C.Run(
      seq(|r.states|, k requires 0 <= k < |r.states| && Has(r, ts) => View(r.states[k], ts)),
      seq(|r.moves|, k requires 0 <= k < |r.moves| && Has(r, ts) => Seen(r.states[k], r.moves[k], r.states[k + 1], ts)))
  }

  /** Each transaction's view is a run of the commit protocol. */
  lemma ProjectedIsRun(r: Run, ts: Time)
    requires IsRun(r) && Has(r, ts)
    ensures C.IsRun(Projected(r, ts)) && Projected(r, ts).states[0].ts == ts
  {
    var p := Projected(r, ts);
    forall k | 0 <= k < |p.actions| ensures C.StepOf(p, k) {
      RunOk(r, k);
      assert StepOf(r, k);
      SeenStep(r.states[k], r.moves[k], r.states[k + 1], ts);
    }
  }

  // ------------------------------------------------- what one server is asked

  predicate AsksAt(r: Run, k: nat, i: nat) {
    && k < |r.moves| && k < |r.states|
    && AskedIn(r.states[k], r.moves[k]).Some? && AskedIn(r.states[k], r.moves[k]).value.server == i
  }

  /** Every call server i made returned. */
  ghost predicate Returned(r: Run, i: nat) {
    forall k, ts :: 0 <= k < |r.states| && ts in r.states[k].nets ==> i !in r.states[k].nets[ts].failed
  }

  function OpAt(r: Run, k: nat): Op
    requires k < |r.moves| && k < |r.states| && AskedIn(r.states[k], r.moves[k]).Some?
  {
    AskedIn(r.states[k], r.moves[k]).value.op
  }

  /** A server that is not asked keeps its store. */
  lemma NotAsked(r: Run, k: nat, i: nat)
    requires IsRun(r) && k < |r.moves| && i < C.SERVERS && !AsksAt(r, k, i)
    ensures |r.states[k].stores| == |r.states[k + 1].stores| == C.SERVERS
    ensures r.states[k + 1].stores[i] == r.states[k].stores[i]
  {
    RunOk(r, k);
    assert StepOf(r, k);
    var w, m, w' := r.states[k], r.moves[k], r.states[k + 1];
    StepWorks(View(w, m.ts), m.action, View(w', m.ts));
    assert View(w, m.ts).stores == w.stores && View(w', m.ts).stores == w'.stores;
  }

  /** What a server that is asked does, as the transaction that asks it sees it. */
  lemma IsAsked(r: Run, k: nat, i: nat)
    requires IsRun(r) && Returned(r, i) && AsksAt(r, k, i)
    ensures var m, op := r.moves[k], OpAt(r, k);
            && i < C.SERVERS && Has(r, m.ts) && op.ts == m.ts
            && |r.states[k].stores| == |r.states[k + 1].stores| == C.SERVERS
            && Perform(r.states[k].stores[i], op).Some?
            && Perform(r.states[k].stores[i], op).value.0 == r.states[k + 1].stores[i]
            && S.Matches(Projected(r, m.ts), k, i, op, Perform(r.states[k].stores[i], op).value.1)
  {
    RunOk(r, k);
    assert StepOf(r, k);
    var w, m, w' := r.states[k], r.moves[k], r.states[k + 1];
    RunHas(r, m.ts);
    ProjectedIsRun(r, m.ts);
    P.RunKeeps(Projected(r, m.ts), k);
    StepWorks(View(w, m.ts), m.action, View(w', m.ts));
    AskedProperly(View(w, m.ts), m.action, View(w', m.ts));
    RunOk(r, k + 1);
  }

  /** A yes vote in a transaction's view is an accepted commit check of that server. */
  lemma VoteIsAsked(r: Run, ts: Time, k: nat, i: nat)
    requires IsRun(r) && Returned(r, i) && Has(r, ts) && S.VotesYes(Projected(r, ts), k, i)
    ensures AsksAt(r, k, i) && r.moves[k].ts == ts && OpAt(r, k) == Prepare(ts)
    ensures |r.states[k].stores| == C.SERVERS
    ensures Perform(r.states[k].stores[i], OpAt(r, k)).Some?
    ensures Perform(r.states[k].stores[i], OpAt(r, k)).value.1.Accepted?
  {
    RunOk(r, k);
    assert StepOf(r, k);
    var w, m, w' := r.states[k], r.moves[k], r.states[k + 1];
    StepWorks(View(w, m.ts), m.action, View(w', m.ts));
    if m.ts == ts {
      assert AsksAt(r, k, i);
      IsAsked(r, k, i);
    }
  }

  // -------------------------------------------------------- the server's own run

  /** The moves of the first k at which server i is asked. */
  function Times(r: Run, i: nat, k: nat): (when: seq<nat>)
    requires k <= |r.moves|
    ensures forall j :: 0 <= j < |when| ==> when[j] < k && AsksAt(r, when[j], i)
    ensures forall j, l :: 0 <= j < l < |when| ==> when[j] < when[l]
    ensures forall m :: 0 <= m < k && AsksAt(r, m, i) ==> m in when
  {
    if k == 0 then []
    else Times(r, i, k - 1) + (if AsksAt(r, k - 1, i) then [k - 1] else [])
  }

  ghost predicate AllFive(r: Run) {
    |r.states| == |r.moves| + 1 && forall k :: 0 <= k < |r.states| ==> |r.states[k].stores| == C.SERVERS
  }

  lemma RunFive(r: Run)
    requires IsRun(r)
    ensures AllFive(r)
  {
    forall k | 0 <= k < |r.states| ensures |r.states[k].stores| == C.SERVERS {
      RunOk(r, k);
    }
  }

  /** Server i's store before its j-th request, and at the end. */
  ghost function StoreAt(r: Run, i: nat, when: seq<nat>, j: nat): Store
    requires AllFive(r) && i < C.SERVERS && j <= |when| && forall l :: 0 <= l < |when| ==> when[l] < |r.moves|
  {
    r.states[if j < |when| then when[j] else |r.moves|].stores[i]
  }

  ghost function OutAt(r: Run, k: nat, i: nat): Outcome
    requires AllFive(r) && i < C.SERVERS && AsksAt(r, k, i)
  {
    match Perform(r.states[k].stores[i], OpAt(r, k))
    case Some(x) => x.1
    case None => Failed
  }

  /** What server i was asked in the whole run, what it answered, and its stores between. */
  ghost function Served(r: Run, i: nat): (q: R.Run)
    requires AllFive(r) && i < C.SERVERS
    ensures var when := Times(r, i, |r.moves|);
            && |q.ops| == |q.outs| == |when| && |q.stores| == |when| + 1
            && (forall j :: 0 <= j <= |when| ==> q.stores[j] == StoreAt(r, i, when, j))
            && (forall j :: 0 <= j < |when| ==> q.ops[j] == OpAt(r, when[j]) && q.outs[j] == OutAt(r, when[j], i))
  {
    var when := Times(r, i, |r.moves|);
    R.Run(
      seq(|when| + 1, j requires 0 <= j <= |when| && AllFive(r) => StoreAt(r, i, when, j)),
      seq(|when|, j requires 0 <= j < |when| => OpAt(r, when[j])),
      seq(|when|, j requires 0 <= j < |when| && AllFive(r) => OutAt(r, when[j], i)))
  }

  /** Between its requests a server's store stays. */
  lemma {:induction false} StoreStays(r: Run, i: nat, a: nat, b: nat)
    requires IsRun(r) && AllFive(r) && i < C.SERVERS && a <= b <= |r.moves|
    requires forall m :: a <= m < b ==> !AsksAt(r, m, i)
    ensures r.states[b].stores[i] == r.states[a].stores[i]
  {
    if a < b {
      StoreStays(r, i, a, b - 1);
      NotAsked(r, b - 1, i);
    }
  }

  lemma NoneBetween(r: Run, i: nat, when: seq<nat>, j: nat)
    requires when == Times(r, i, |r.moves|) && j <= |when|
    ensures var a := if j == 0 then 0 else when[j - 1] + 1; var b := if j < |when| then when[j] else |r.moves|;
            a <= b && forall m :: a <= m < b ==> !AsksAt(r, m, i)
  {
    var a := if j == 0 then 0 else when[j - 1] + 1;
    var b := if j < |when| then when[j] else |r.moves|;
    if j > 0 {
      assert when[j - 1] < b;
    }
    forall l | 0 <= l < |when| ensures when[l] < a || b <= when[l] {
      if l >= j && l > j {
        assert when[j] < when[l];
      }
    }
  }

  lemma PerformsAt(r: Run, i: nat, k: nat)
    requires IsRun(r) && AllFive(r) && Returned(r, i) && i < C.SERVERS && AsksAt(r, k, i)
    ensures Perform(r.states[k].stores[i], OpAt(r, k)) == Some((r.states[k + 1].stores[i], OutAt(r, k, i)))
  {
    IsAsked(r, k, i);
  }

  /** From the end of one request to the next the store stays. */
  lemma StoreBefore(r: Run, i: nat, when: seq<nat>, j: nat, a: nat)
    requires IsRun(r) && AllFive(r) && i < C.SERVERS && when == Times(r, i, |r.moves|) && j <= |when|
    requires a == if j == 0 then 0 else when[j - 1] + 1
    ensures a < |r.states| && r.states[a].stores[i] == StoreAt(r, i, when, j)
  {
    NoneBetween(r, i, when, j);
    var b := if j < |when| then when[j] else |r.moves|;
    StoreStays(r, i, a, b);
  }

  lemma ServedParts(r: Run, i: nat, q: R.Run, when: seq<nat>, j: nat)
    requires AllFive(r) && i < C.SERVERS && when == Times(r, i, |r.moves|) && q == Served(r, i) && j < |q.ops|
    ensures j < |when| && j < |q.outs| && j + 1 < |q.stores| && AsksAt(r, when[j], i)
    ensures q.stores[j] == r.states[when[j]].stores[i] && q.stores[j + 1] == StoreAt(r, i, when, j + 1)
    ensures q.ops[j] == OpAt(r, when[j]) && q.outs[j] == OutAt(r, when[j], i)
  {
    assert q.stores[j] == StoreAt(r, i, when, j);
  }

  lemma PerformsNext(r: Run, i: nat, when: seq<nat>, j: nat, k: nat)
    requires IsRun(r) && AllFive(r) && Returned(r, i) && i < C.SERVERS
    requires when == Times(r, i, |r.moves|) && j < |when| && k == when[j] && AsksAt(r, k, i)
    ensures Perform(r.states[k].stores[i], OpAt(r, k)) == Some((StoreAt(r, i, when, j + 1), OutAt(r, k, i)))
  {
    PerformsAt(r, i, k);
    StoreBefore(r, i, when, j + 1, k + 1);
  }

  lemma ServedStep(r: Run, i: nat, q: R.Run, when: seq<nat>, j: nat)
    requires IsRun(r) && AllFive(r) && Returned(r, i) && i < C.SERVERS
    requires when == Times(r, i, |r.moves|) && q == Served(r, i) && j < |q.ops|
    ensures j < |q.outs| && j + 1 < |q.stores|
    ensures Perform(q.stores[j], q.ops[j]) == Some((q.stores[j + 1], q.outs[j]))
  {
    ServedParts(r, i, q, when, j);
    PerformsNext(r, i, when, j, when[j]);
  }

  /** What a server did in a run of the whole system is a run of that server. */
  lemma ServedIsRun(r: Run, i: nat)
    requires IsRun(r) && AllFive(r) && Returned(r, i) && i < C.SERVERS
    ensures R.IsRun(Served(r, i)) && Served(r, i).stores[|Served(r, i).ops|] == r.states[|r.moves|].stores[i]
  {
    var q, when := Served(r, i), Times(r, i, |r.moves|);
    StoreBefore(r, i, when, 0, 0);
    forall j | 0 <= j < |q.ops| ensures R.StepOf(q, j) {
      ServedStep(r, i, q, when, j);
    }
  }

  ghost function Protocol(r: Run, i: nat): map<Time, (C.Run, seq<nat>)>
    requires IsRun(r) && forall ts :: ts in r.states[0].nets ==> Has(r, ts)
  {
    map ts | ts in r.states[0].nets :: (Projected(r, ts), Times(r, i, |r.moves|))
  }

  lemma MatchesAt(r: Run, i: nat, ts: Time, k: nat)
    requires IsRun(r) && AllFive(r) && Returned(r, i) && i < C.SERVERS && AsksAt(r, k, i) && OpAt(r, k).ts == ts
    requires Has(r, ts)
    ensures S.Matches(Projected(r, ts), k, i, OpAt(r, k), OutAt(r, k, i))
  {
    IsAsked(r, k, i);
  }

  lemma VoteListed(r: Run, i: nat, ts: Time, q: R.Run, when: seq<nat>, m: nat)
    requires IsRun(r) && AllFive(r) && Returned(r, i) && i < C.SERVERS && Has(r, ts)
    requires when == Times(r, i, |r.moves|) && q == Served(r, i) && S.VotesYes(Projected(r, ts), m, i)
    ensures S.Listed(q, ts, when, m)
  {
    VoteIsAsked(r, ts, m, i);
    var k :| 0 <= k < |when| && when[k] == m;
    assert q.ops[k] == Prepare(ts) && q.outs[k].Accepted? && when[k] == m;
  }

  lemma ServedGoverns(r: Run, i: nat, ts: Time, p: C.Run, q: R.Run, when: seq<nat>)
    requires IsRun(r) && AllFive(r) && Returned(r, i) && i < C.SERVERS && Has(r, ts)
    requires p == Projected(r, ts) && when == Times(r, i, |r.moves|) && q == Served(r, i)
    ensures S.Governs(p, q, i, ts, when)
  {
    ProjectedIsRun(r, ts);
    forall k | 0 <= k < |q.ops| && q.ops[k].ts == ts ensures S.Matches(p, when[k], i, q.ops[k], q.outs[k]) {
      MatchesAt(r, i, ts, when[k]);
    }
    forall m | 0 <= m && S.VotesYes(p, m, i) ensures S.Listed(q, ts, when, m) {
      VoteListed(r, i, ts, q, when, m);
    }
  }

  /** Every server all of whose calls returned is governed by the commit protocol. */
  lemma ServedIsGoverned(r: Run, i: nat)
    requires IsRun(r) && AllFive(r) && Returned(r, i) && i < C.SERVERS
    requires forall ts :: ts in r.states[0].nets ==> Has(r, ts)
    ensures S.Governed(Served(r, i), i, Protocol(r, i))
  {
    var q, when := Served(r, i), Times(r, i, |r.moves|);
    forall ts | S.Mentions(q, ts)
      ensures ts in Protocol(r, i) && S.Governs(Protocol(r, i)[ts].0, q, i, ts, Protocol(r, i)[ts].1)
    {
      var k :| 0 <= k < |q.ops| && q.ops[k].ts == ts;
      IsAsked(r, when[k], i);
      ServedGoverns(r, i, ts, Projected(r, ts), q, when);
    }
  }

  // ------------------------------------------------------------------ theorems

  /** In every run of all transactions together, at every server all of whose calls
      returned: what it did is a run of that server, it never aborts a transaction it has
      committed, and it commits none without a successful check after its last write. */
  lemma ServersAreGoverned(r: Run, i: nat)
    requires IsRun(r) && Returned(r, i) && i < C.SERVERS
    ensures AllFive(r) && R.IsRun(Served(r, i)) && R.CommitsLast(Served(r, i)) && L.CommitsChecked(Served(r, i))
    ensures Served(r, i).stores[|Served(r, i).ops|] == r.states[|r.moves|].stores[i]
  {
    RunFive(r);
    ServedIsRun(r, i);
    forall ts | ts in r.states[0].nets ensures Has(r, ts) {
      RunHas(r, ts);
    }
    ServedIsGoverned(r, i);
    S.ProtocolCommitsLast(Served(r, i), i, Protocol(r, i));
    S.ProtocolChecksFirst(Served(r, i), i, Protocol(r, i));
  }

  /** So two answered reads of an account there, by a transaction that only reads it in
      between, agree. */
  lemma ReadsRepeat(r: Run, i: nat, j: nat, k: nat, tc: Time, D: string, V: int, W: int)
    requires IsRun(r) && AllFive(r) && Returned(r, i) && i < C.SERVERS && j < k
    requires R.OnlyReads(Served(r, i), j, k, tc, D)
    requires R.ReadsAt(Served(r, i), j, tc, D, V) && R.ReadsAt(Served(r, i), k, tc, D, W)
    ensures V == W
  {
    ServersAreGoverned(r, i);
    R.RepeatableRead(Served(r, i), j, k, tc, D, V, W);
  }

  /** And with one live writer per account, every committed value there is the sum of the
      committed accepted amounts, and not negative. */
  lemma BooksAreSound(r: Run, i: nat, D: string)
    requires IsRun(r) && AllFive(r) && Returned(r, i) && i < C.SERVERS && L.SingleWriters(Served(r, i))
    ensures Committed(r.states[|r.moves|].stores[i], D)
         == L.CommittedSum(Served(r, i), |Served(r, i).ops|, D) >= 0
  {
    ServersAreGoverned(r, i);
    var q := Served(r, i);
    L.SingleIsAlone(q);
    L.LedgerExact(q, |q.ops|, D);
    L.NeverNegative(q, |q.ops|, D);
  }

  /** And whatever the others do, each transaction commits everywhere or nowhere: once any
      server commits it, every server had voted yes, and none ever aborts it. */
  lemma EachIsAtomic(r: Run, ts: Time, k: nat, i: nat, l: nat, j: nat)
    requires IsRun(r) && k < |r.states| && l < |r.states| && i < C.SERVERS && j < C.SERVERS
    requires ts in r.states[k].nets && |r.states[k].nets[ts].log| == C.SERVERS
    requires r.states[k].nets[ts].log[i].commits > 0
    ensures ts in r.states[l].nets && |r.states[l].nets[ts].log| == C.SERVERS
    ensures r.states[k].nets[ts].log[j].vote.Yes?
    ensures r.states[l].nets[ts].log[j].aborts == 0 && r.states[l].nets[ts].log[j].commits <= 1
  {
    RunOk(r, k);
    RunHas(r, ts);
    ProjectedIsRun(r, ts);
    var p := Projected(r, ts);
    assert C.Sized(p.states[k]) && p.states[k].log[i].commits > 0;
    P.Atomicity(p, k, i, l, j);
    assert C.Sized(p.states[l]);
  }
}
