/** Two-phase commit of one transaction among the five branches of mp3/server/server.go:
    the client, the coordinator it talks to, the other four servers, and the first-in
    first-out connections between the coordinator and each of them. */
module TwoPhase {
  import opened Options
  import opened TxStore

  const SERVERS: nat := 5
  const NEEDED: nat := 4

  /** What the client sends: an operation on some branch, COMMIT or ABORT. */
  datatype Request = Data(branch: nat, op: Op) | Finish | GiveUp

  /** Coordinator to server: a forwarded operation, ABORT_Coordinator, COMMIT_PREPARE,
      COMMIT_OK. */
  datatype Msg = Forward(op: Op) | AbortMsg | PrepareMsg | CommitMsg

  /** Server to coordinator: OK or a value, ABORTED or NOT, COMMIT_READY. */
  datatype Reply = Good | Bad | Ready

  /** The client waits for each answer; an abort or a commit ends it. */
  datatype Client = Idle | Waiting | Closed

  datatype Vote = Unasked | Yes | No

  /** What a server did for the transaction: the answer of CheckCommit, and the calls
      of DoCommit and DoAbort. */
  datatype Log = Log(vote: Vote, commits: nat, aborts: nat)

  /** c is the coordinator, ts the transaction; `failed` are the servers with a call
      that did not return. */
  datatype Net = Net(
    c: nat, ts: Time, stores: seq<Store>, log: seq<Log>, out: seq<seq<Msg>>, back: seq<seq<Reply>>,
    count: nat, client: Client, last: Request, failed: set<nat>)

  predicate Sized(s: Net) {
    s.c < SERVERS && |s.stores| == |s.log| == |s.out| == |s.back| == SERVERS
  }

  predicate Init(s: Net) {
    && Sized(s) && s.client == Idle && s.count == 0 && s.failed == {}
    && forall i :: 0 <= i < SERVERS ==> s.log[i] == Log(Unasked, 0, 0) && s.out[i] == [] && s.back[i] == []
  }

  // ------------------------------------------------------------ building blocks

  function Voted(s: Net, i: nat, v: Vote): Net
    requires Sized(s) && i < SERVERS
  {
    s.(log := s.log[i := s.log[i].(vote := v)])
  }

  function Stored(s: Net, i: nat, st: Option<Store>): Net
    requires Sized(s) && i < SERVERS
  {
    match st
    case None => s.(failed := s.failed + {i})
    case Some(x) => s.(stores := s.stores[i := x])
  }

  /** Server i calls DoAbort. */
  function Aborts(s: Net, i: nat): Net
    requires Sized(s) && i < SERVERS
  {
    Stored(s.(log := s.log[i := s.log[i].(aborts := s.log[i].aborts + 1)]), i, Undo(s.stores[i], s.ts))
  }

  /** Server i calls DoCommit. */
  function Commits(s: Net, i: nat): Net
    requires Sized(s) && i < SERVERS
  {
    Stored(s.(log := s.log[i := s.log[i].(commits := s.log[i].commits + 1)]), i, Settle(s.stores[i], s.ts))
  }

  /** The coordinator sends to every other server. */
  function Tell(s: Net, m: Msg): Net
    requires Sized(s)
  {
    s.(out := seq(SERVERS, i requires 0 <= i < SERVERS => if i == s.c then s.out[i] else s.out[i] + [m]))
  }

  function Reports(s: Net, i: nat, r: Reply): Net
    requires Sized(s) && i < SERVERS
  {
    s.(back := s.back[i := s.back[i] + [r]])
  }

  // ------------------------------------------------------------------ handlers

  predicate Operation(op: Op, ts: Time) {
    (op.Read? || op.Write?) && op.ts == ts
  }

  /** A DEPOSIT, WITHDRAW or BALANCE line from the client; on the coordinator's own
      branch a failure is aborted there and nowhere else. */
  function AskData(s: Net, b: nat, op: Op): Net
    requires Sized(s) && b < SERVERS
  {
    var s0 := s.(client := Waiting, last := Data(b, op));
    if b != s.c then s0.(out := s.out[b := s.out[b] + [Forward(op)]])
    else
      var (st, outcome) := Attempt(s.stores[b], op);
      var s1 := s0.(stores := s.stores[b := st]);
      if outcome.Failed? then Aborts(s1.(client := Closed), b)
      else if outcome == Answered(Blocked) then s1
      else s1.(client := Idle)
  }

  function AskFinish(s: Net): Net
    requires Sized(s)
  {
    var s0 := s.(client := Waiting, last := Finish, count := 0);
    if Solvent(s.stores[s.c], s.ts) then Tell(Voted(s0, s.c, Yes), PrepareMsg)
    else
      var s1 := Aborts(Voted(s0, s.c, No), s.c);
      if Undo(s.stores[s.c], s.ts).None? then s1 else Aborts(Tell(s1.(client := Closed), AbortMsg), s.c)
  }

  function AskGiveUp(s: Net): Net
    requires Sized(s)
  {
    var s1 := Aborts(s.(client := Waiting, last := GiveUp), s.c);
    if Undo(s.stores[s.c], s.ts).None? then s1 else Tell(s1.(client := Closed), AbortMsg)
  }

  function Ask(s: Net, r: Request): Net
    requires Sized(s) && (r.Data? ==> r.branch < SERVERS)
  {
    match r
    case Data(b, op) => AskData(s, b, op)
    case Finish => AskFinish(s)
    case GiveUp => AskGiveUp(s)
  }

  predicate BlockedAt(s: Net, i: nat, m: Msg)
    requires Sized(s) && i < SERVERS
  {
    m.Forward? && Attempt(s.stores[i], m.op).1 == Answered(Blocked)
  }

  /** Server i handles message m of the coordinator. */
  function Serve(s: Net, i: nat, m: Msg): Net
    requires Sized(s) && i < SERVERS
  {
    match m
    case Forward(op) =>
      var (st, outcome) := Attempt(s.stores[i], op);
      var s1 := s.(stores := s.stores[i := st]);
      if outcome.Failed? then Aborts(Reports(s1, i, Bad), i) else Reports(s1, i, Good)
    case AbortMsg => Aborts(s, i)
    case PrepareMsg =>
      if Solvent(s.stores[i], s.ts) then Reports(Voted(s, i, Yes), i, Ready)
      else
        var s1 := Aborts(Voted(s, i, No), i);
        if Undo(s.stores[i], s.ts).None? then s1 else Aborts(Reports(s1, i, Bad), i)
    case CommitMsg => Commits(s, i)
  }

  /** The coordinator handles a reply. */
  function Collect(s: Net, r: Reply): Net
    requires Sized(s)
  {
    match r
    case Good => if s.client == Waiting then s.(client := Idle) else s
    case Bad =>
      var s1 := Aborts(s, s.c);
      if Undo(s.stores[s.c], s.ts).None? then s1 else Tell(s1.(client := Closed), AbortMsg)
    case Ready =>
      var s0 := s.(count := s.count + 1);
      if s0.count != NEEDED then s0
      else
        var s1 := Commits(s0, s.c);
        if Settle(s.stores[s.c], s.ts).None? then s1 else Tell(s1.(client := Closed), CommitMsg)
  }

  // --------------------------------------------------------------------- steps

  /** A request of the client, a message handled by server i, a reply of server i
      handled by the coordinator, or other transactions' work at server i. */
  datatype Action = Asks(r: Request) | Serves(i: nat) | Collects(i: nat) | Elsewhere(i: nat, store: Store)

  predicate Step(s: Net, a: Action, s': Net) {
    Sized(s) &&
    match a
    case Asks(r) =>
      s.client == Idle && (r.Data? ==> r.branch < SERVERS && Operation(r.op, s.ts)) && s' == Ask(s, r)
    case Serves(i) =>
      && i < SERVERS && s.out[i] != [] && !BlockedAt(s, i, s.out[i][0])
      && s' == Serve(s.(out := s.out[i := s.out[i][1..]]), i, s.out[i][0])
    case Collects(i) =>
      && i < SERVERS && s.back[i] != []
      && s' == Collect(s.(back := s.back[i := s.back[i][1..]]), s.back[i][0])
    case Elsewhere(i, store) =>
      i < SERVERS && s' == s.(stores := s.stores[i := store])
  }

  datatype Run = Run(states: seq<Net>, actions: seq<Action>)

  predicate StepOf(r: Run, k: nat)
    requires k < |r.actions| < |r.states|
  {
    Step(r.states[k], r.actions[k], r.states[k + 1])
  }

  ghost predicate IsRun(r: Run) {
    && |r.states| == |r.actions| + 1
    && Init(r.states[0])
    && forall k {:trigger StepOf(r, k)} :: 0 <= k < |r.actions| ==> StepOf(r, k)
  }

  // ----------------------------------------------------------------- invariant

  ghost predicate Participant(s: Net, i: nat) {
    i < SERVERS && i != s.c
  }

  ghost predicate AllYes(s: Net) {
    Sized(s) && forall i :: 0 <= i < SERVERS ==> s.log[i].vote.Yes?
  }

  ghost predicate SomeNo(s: Net) {
    Sized(s) && exists i :: 0 <= i < SERVERS && s.log[i].vote.No?
  }

  ghost predicate ToldOne(s: Net, i: nat)
    requires Sized(s) && i < SERVERS
  {
    s.log[i].aborts > 0 || AbortMsg in s.out[i]
  }

  /** The coordinator aborted, and told everyone. */
  ghost predicate Told(s: Net) {
    Sized(s) && s.log[s.c].aborts > 0 && forall i {:trigger ToldOne(s, i)} :: Participant(s, i) ==> ToldOne(s, i)
  }

  /** Nothing has been aborted, asked or committed yet. */
  ghost predicate Untouched(s: Net) {
    Sized(s) && forall i :: 0 <= i < SERVERS ==> s.log[i] == Log(Unasked, 0, 0)
  }

  /** The transaction is at work: at most one operation is under way. */
  ghost predicate Working(s: Net) {
    && Untouched(s)
    && (if s.client == Idle then
          forall i :: 0 <= i < SERVERS ==> s.out[i] == [] && s.back[i] == []
        else
          && s.client == Waiting && s.last.Data? && Participant(s, s.last.branch) && Operation(s.last.op, s.ts)
          && (forall i :: 0 <= i < SERVERS && i != s.last.branch ==> s.out[i] == [] && s.back[i] == [])
          && var o, b := s.out[s.last.branch], s.back[s.last.branch];
             (o == [Forward(s.last.op)] && b == []) || (o == [] && b == [Good]))
  }

  ghost predicate OnlyAborts(o: seq<Msg>) { forall k :: 0 <= k < |o| ==> o[k] == AbortMsg }

  ghost predicate OnlyBad(b: seq<Reply>) { forall k :: 0 <= k < |b| ==> b[k] == Bad }

  /** Why a transaction is doomed, and how far the word has spread. */
  ghost predicate Cause(s: Net)
    requires Sized(s)
  {
    match s.last
    case Data(b, _) =>
      b < SERVERS &&
      if b == s.c then
        forall i :: 0 <= i < SERVERS && i != s.c ==> s.log[i].aborts == 0 && s.out[i] == [] && s.back[i] == []
      else s.log[b].aborts > 0 && (Bad in s.back[b] || s.c in s.failed || Told(s))
    case _ => s.c in s.failed || Told(s)
  }

  /** It will never be committed: only abort messages are left. */
  ghost predicate Doomed(s: Net) {
    && Sized(s) && s.client != Idle
    && s.out[s.c] == [] && s.back[s.c] == []
    && (forall i :: 0 <= i < SERVERS ==> OnlyAborts(s.out[i]) && OnlyBad(s.back[i]) && s.log[i].commits == 0)
    && (forall i :: 0 <= i < SERVERS ==> s.log[i].vote == if i == s.c && s.last.Finish? then No else Unasked)
    && Cause(s)
  }

  ghost predicate NoPrepare(o: seq<Msg>) {
    forall k :: 0 <= k < |o| ==> o[k] == AbortMsg || o[k] == CommitMsg
  }

  /** Where a server stands once the coordinator has sent COMMIT_PREPARE. */
  ghost predicate Stage(s: Net, i: nat)
    requires Sized(s) && i < SERVERS
  {
    var o, b, l := s.out[i], s.back[i], s.log[i];
    && (l.vote.Unasked? ==> b == [] && o != [] && o[0] == PrepareMsg && NoPrepare(o[1..]))
    && (!l.vote.Unasked? ==> NoPrepare(o))
    && (l.vote.Yes? ==> b == [] || b == [Ready])
    && (l.vote.No? ==> && (b == [] || b == [Bad]) && l.aborts > 0
                       && (b == [] ==> s.c in s.failed || i in s.failed || Told(s)))
    && (CommitMsg in o || l.commits > 0 ==> AllYes(s))
    && (ToldOne(s, i) ==> SomeNo(s))
    && multiset(o)[CommitMsg] + l.commits <= s.log[s.c].commits
    && (s.c !in s.failed ==> multiset(o)[CommitMsg] + l.commits == s.log[s.c].commits)
  }

  /** The servers whose READY has been counted. */
  ghost function Counted(s: Net): set<nat>
    requires Sized(s)
  {
    set i | 0 <= i < SERVERS && i != s.c && s.log[i].vote.Yes? && s.back[i] == []
  }

  ghost predicate Voting(s: Net) {
    && Sized(s) && s.client != Idle && s.last == Finish
    && s.out[s.c] == [] && s.back[s.c] == []
    && s.log[s.c].vote.Yes?
    && s.log[s.c].commits == (if s.count == NEEDED then 1 else 0)
    && (s.log[s.c].commits > 0 ==> AllYes(s))
    && (s.log[s.c].aborts > 0 ==> SomeNo(s))
    && s.count == |Counted(s)|
    && forall i {:trigger Stage(s, i)} :: Participant(s, i) ==> Stage(s, i)
  }

  ghost predicate Inv(s: Net) {
    Working(s) || Doomed(s) || Voting(s)
  }
}
