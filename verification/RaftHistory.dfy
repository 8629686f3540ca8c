/** What a run has done so far, computed from the run: votes cast, logs with
    which servers stood, leaders, their logs, and acknowledged prefixes.  The
    history is not part of the program state; it is what the proofs talk about. */
module RaftHistory {
  import opened RaftCore
  import opened RaftCluster

  datatype Grant = Grant(term: nat, voter: nat, candidate: nat)

  /** In the given term the server held the leader's log up to length len. */
  datatype Ack = Ack(term: nat, server: nat, len: nat)

  datatype History = History(
    grants: set<Grant>,
    stood: map<(nat, nat), seq<Entry>>,   // (term, candidate): its log when it stood
    leaders: map<nat, nat>,               // term: its leader
    lead: map<nat, seq<Entry>>,           // term: the latest log of its leader; term 0: the sentinel
    acks: set<Ack>)

  function InitHistory(): History {
    History({}, map[], map[], map[0 := [SENTINEL]], {})
  }

  function RecordStand(h: History, s: Server): History {
    h.(grants := h.grants + {Grant(s.currentTerm, s.me, s.me)},
       stood := h.stood[(s.currentTerm, s.me) := s.log])
  }

  function RecordElection(h: History, s: Server): History {
    h.(leaders := h.leaders[s.currentTerm := s.me], lead := h.lead[s.currentTerm := s.log])
  }

  function RecordStart(h: History, s: Server): History {
    h.(lead := h.lead[s.currentTerm := s.log], acks := h.acks + {Ack(s.currentTerm, s.me, |s.log|)})
  }

  /** The history after the server at which the action happens went from s to s'. */
  function Record(h: History, a: Action, s: Server, s': Server): History
    requires |s.log| > 0
  {
    match a
    case Timeout(_) => RecordStand(h, s')
    case DeliverVote(m) =>
      if m.VoteRequest? && RequestVote(s, m.vote).1.granted
      then h.(grants := h.grants + {Grant(m.vote.term, m.to, m.vote.candidate)}) else h
    case VoteReturns(_) =>
      if s.state != Leader && s'.state == Leader then RecordElection(h, s') else h
    case DeliverAppend(m) =>
      if m.AppendRequest? && AppendEntries(s, m.append).Done? && AppendEntries(s, m.append).value.1.success
      then h.(acks := h.acks + {Ack(m.append.term, m.to, Reach(m.append))}) else h
    case ClientStart(_, _) =>
      if s.state == Leader then RecordStart(h, s') else h
    case _ => h
  }

  ghost function HistoryAt(r: Run, n: nat, k: nat): History
    requires IsRun(r, n) && k < |r.states|
  {
    if k == 0 then InitHistory()
    else
      var a := r.actions[k - 1];
      assert Step(r.states[k - 1], r.actions[k - 1], r.states[k - 1 + 1]);
      Record(HistoryAt(r, n, k - 1), a, r.states[k - 1].servers[Place(a)], r.states[k].servers[Place(a)])
  }

  lemma HistoryStep(r: Run, n: nat, k: nat)
    requires IsRun(r, n) && k < |r.actions|
    ensures Step(r.states[k], r.actions[k], r.states[k + 1])
    ensures HistoryAt(r, n, k + 1)
         == Record(HistoryAt(r, n, k), r.actions[k],
                   r.states[k].servers[Place(r.actions[k])], r.states[k + 1].servers[Place(r.actions[k])])
  {
  }

  function Voters(grants: set<Grant>, term: nat, candidate: nat): set<nat> {
    set g | g in grants && g.term == term && g.candidate == candidate :: g.voter
  }
}
