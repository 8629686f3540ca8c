# Three distributed protocols, modelled and proved

The repository holds three course programs. Each is a protocol among processes that
exchange messages, and each is modelled here as a step relation: the state of every
process, the messages in transit, and one atomic step per handler.

**ISIS total-order multicast (`mp1`).** Every node passes a message on when it first
receives it, proposes a priority to the originator, the originator takes the largest of
all proposals, and the agreed priority is passed on in the same way. A hold-back queue
hands messages to a bank in priority order. Agreeing never raises a node's counters, so
the usual argument for total order does not apply. It holds because a node passes a
message on *before* it proposes and channels are first-in first-out: whoever hears an
agreed priority already holds every message its proposer had counted.

**Raft (`mp2`)**, after "In Search of an Understandable Consensus Algorithm" (the Raft
paper), sections 5.1 to 5.4. The program lacks three checks, so three hypotheses on runs
are stated (module `RaftCluster`) and never added to the steps:

- H1: a vote reply or a successful append reply is counted in the term in which its request was sent
  (no check at `mp2/src/raft/raft.go:495-508` or `569-585`);
- H2: the leader's log has not grown since it sent the request whose successful reply it
  counts (`mp2/src/raft/raft.go:507-508` uses the current length);
- H3: an index committed by counting holds an entry of the leader's own term (section
  5.4.2 of the Raft paper; no check at `mp2/src/raft/raft.go:509-522`).

Concrete runs show that each of them is needed: without H1 a term gets two leaders, without
H2 or without H3 two servers apply different commands at index 1.

Two things one would expect are false of the program, with all three hypotheses, and for
each there is a run and the exact condition. "One vote per term": hearing a leader clears
the vote within the term, so a server votes for two candidates exactly when it stood
itself, was stepped down by an append of that term, and then granted a vote; election
safety holds all the same. "The leader never sends from below index 1": a failed reply lowers
`nextIndex` unguarded (`mp2/src/raft/raft.go:529`), so a killed peer or two overlapping
exchanges make the next heartbeat panic, exactly when as many replies failed in a row as the
log was long; with a live peer and one exchange at a time it never happens.

**Transactions (`mp3`).** Five branch servers keep tentative writes and read timestamps
and commit in two phases. Atomicity holds over every interleaving. Repeatable reads hold
on a server that never aborts what it committed, which is what atomicity gives; the protocol
also gives that every commit follows its check, on which the balances rest. Both are derived
for a system of any number of transactions that share the servers' stores. The balances are right exactly under the conditions stated: `DoCommit` adds a transaction's own
amount exactly if the earlier writes pending on the account sum to nothing, it returns
only if the server holds no later write, and `DoAbort` returns exactly if every read list
is long enough for its loop.

## How it is laid out

| files | content |
|---|---|
| `Options`, `Quorums` | optional values; counting facts about sets of nodes |
| `RaftCore`, `RaftCluster`, `RaftHistory` | handlers on values; network, steps, runs, hypotheses; what a run has recorded |
| `RaftElection`, `RaftLogs`, `RaftPersistence`, `RaftCommit`, `RaftQuorum` | the invariants and the theorems, in the order they build on each other |
| `RaftApply`, `RaftReorder` | the apply stream and panics of every run; requests out of order |
| `RaftBackOff`, `RaftVotes` | log back-off over runs; when and how often a server votes in a term |
| `RaftFollow`, `RaftSteps` | how commits reach the followers; what a step does and answers |
| `RaftNode` | the `Raft` object with its loops, proved against `RaftCore` |
| `RaftLimits`, `RaftOldTerm` | runs that break safety when H1, H2 or H3 is dropped, that vote twice, that end in a panicking heartbeat, in which the order of requests matters, and in which a follower applies a command |
| `IsisQueue`, `IsisList`, `IsisHeap` | the hold-back queue on values; the sorted list; the heap with `heapq`'s sifting loops |
| `IsisLimits` | calls on which heap and list part, when a message is queued twice |
| `IsisSystem`, `IsisInvariant`, `IsisSteps`, `IsisNodes`, `IsisRuns` | nodes, channels, steps; the whole-system invariant and its preservation |
| `IsisOrder`, `IsisFlood`, `IsisQuiet`, `IsisMember` | total order and causality; passing on; agreement at rest; the node object |
| `Bank`, `Wire` | the replicated balances; printing and parsing |
| `TxStore`, `TxServer` | a branch server on values; the server object with its loops |
| `TxHistory` | what a server answers, from the requests made so far |
| `TxReads`, `TxLedger`, `TxLimits` | repeatable reads; balances; runs outside the conditions, and one inside |
| `TwoPhase`, `TwoPhaseProof`, `TwoPhaseClient`, `TwoPhaseLimits` | client, coordinator and participants; atomicity; what the client hears; a run that leaves servers unfinished |
| `TxSystem`, `TxWorld` | what the protocol gives the readers and the books of a server; all transactions together on shared stores |

The classes change their fields in place as the source does, and each of their methods is
proved equal to the function of the same step; the theorems are about runs of those
functions. What a run has done so far is computed from the run, so no proof bookkeeping is
part of any state. A member stated over a `Run` holds for all its states.

Modelling decisions that a reader should know:

- A priority is counted in tenths, so a node id enters as that many tenths
  (`mp1/isis.py:21-22`) and the integer part of the program's float is the quotient by
  ten. With at most ten nodes the remainder names the proposer; `TenNodes` shows that ten is exact.
- Message ids, which the program takes from the clock, are assumed never to repeat
  (`FreshIds`).
- The promotion in `sendvote` and `TurnLeader` are one step, and so are the time-out and
  the stamping of the vote arguments.
- A Go panic is the outcome `Panic` in Raft and `None` in the transaction model, where
  `None` also stands for a loop that never ends.

## Model

| member | source | states |
|---|---|---|
| RaftElection.ElectionSafety | mp2/src/raft/raft.go:145-233 | in every run satisfying H1, whoever leads term t, at any two moments, is the same server, although the vote is cleared within a term |
| RaftElection.ElectedIsFirst | mp2/src/raft/raft.go:578-588 | a vote reply that promotes a candidate does so with a majority of voters in a term that has had no leader, and leaves its term and log alone |
| RaftElection.VoteDoesNotClash | mp2/src/raft/raft.go:201-232 | a vote just granted to another server contradicts no earlier vote of the term |
| RaftElection.NoEarlierLeader | mp2/src/raft/raft.go:582-588 | a candidate with a majority in its own term finds no earlier leader of that term |
| RaftElection.RunKeeps | mp2/src/raft/raft.go:145-301 | the election invariant holds at every moment of every run satisfying H1 |
| RaftLogs.LogMatching | mp2/src/raft/raft.go:268-287 | in every run satisfying H1, two logs of any servers at any moments that agree on the term at an index agree on every entry up to it, commands included |
| RaftLogs.MergeFollowsLeader | mp2/src/raft/raft.go:275-287 | merging a piece of a leader's log into a matching log that passes the prefix check gives either a log that agrees with the leader's that far or the leader's own prefix |
| RaftLogs.MergeKeepsCommon | mp2/src/raft/raft.go:275-287 | merging never loses what the follower's log and the leader's log have in common |
| RaftLogs.LeadStays | mp2/src/raft/raft.go:373-381 | a term's leader log only ever grows |
| RaftPersistence.UpToDateCarries | mp2/src/raft/raft.go:222-227 | a candidate whose log passes a voter's up-to-date test holds every own-term entry the voter acknowledged, unless a later leader already lacks it |
| RaftPersistence.LeaderCompleteness | mp2/src/raft/raft.go:204-231 | an own-term entry acknowledged by a majority, and all before it, is in the log of every later leader |
| RaftPersistence.NewLeaderLacks | mp2/src/raft/raft.go:582-588 | a new leader can lack an older leader's entry only if a majority can never acknowledge it |
| RaftPersistence.RunKeeps | mp2/src/raft/raft.go:193-301 | the persistence invariant holds at every moment of every run satisfying H1 |
| RaftCommit.StateMachineSafety | mp2/src/raft/config.go:132-138 | in every run satisfying H1, H2 and H3, no two servers ever apply different commands at one index, at whatever moments |
| RaftApply.ApplyStreamIff | mp2/src/raft/raft.go:656-678 | in every run, with none of H1 to H3: at all moments up to one every server has applied exactly indices 1 to commitIndex, once each, in order, in bounds, as in its log, if and only if no step until then lost or replaced a command at or below a commit index |
| RaftApply.ApplyStream | mp2/src/raft/raft.go:656-678 | so it has in every run in which no log is truncated at or below its commit index |
| RaftApply.SafeRunApplies | mp2/src/raft/raft.go:268-299 | under H1 to H3 nothing is so truncated, hence the stream is as promised and no AppendEntries message in transit panics |
| RaftCommit.CommittedKept | mp2/src/raft/raft.go:268-287 | AppendEntries never truncates at or below the commit index |
| RaftCommit.MergedIsBacked | mp2/src/raft/raft.go:293-297 | the commit index a follower takes over lies within its merged log and is backed there by a majority |
| RaftCommit.QuorumAcked | mp2/src/raft/raft.go:509-522 | an index that matchIndex counts for more than half was acknowledged by a majority |
| RaftCommit.CommittedInLeader | mp2/src/raft/raft.go:222-231 | whatever a server has committed is in the log of every leader of its own or a later term |
| RaftCommit.RunKeepsFull | mp2/src/raft/raft.go:193-531 | everything the safety theorems rest on holds at every moment of a run satisfying H1, H2 and H3 |
| RaftQuorum.QuorumBackedCommit | mp2/src/raft/raft.go:506-523 | under H1 and H2, when a leader moves commitIndex, each server of a strict majority had, at some moment of that term, a log equal to the leader's up to it |
| RaftApply.DeliveryNeverPanics | mp2/src/raft/raft.go:293-299 | while no committed command was lost, no AppendEntries message in transit makes its receiver index past its log, although the bound is the log's length |
| RaftApply.AppendPanicsIff | mp2/src/raft/raft.go:268-299 | the append handler panics exactly when it merges and the commit index it is left with is not applied yet and past the merged log |
| RaftApply.ApplyIs | mp2/src/raft/raft.go:656-678 | applying sends the messages after lastApplied in order and ends at the commit index, or panics exactly if it would have to go past the log |
| RaftApply.FreshFollowerPanicsIff | mp2/src/raft/raft.go:470-480 | sending the whole suffix is what prevents that: a fresh follower panics exactly when a request from index 0 reaches no further than the leader's commit index |
| RaftQuorum.CountingNeverPanics | mp2/src/raft/raft.go:506-526 | handling an append reply never indexes out of bounds while commitIndex is within the log |
| RaftReorder.MergeIs | mp2/src/raft/raft.go:275-287 | merging either leaves the log as it is, exactly when it already reaches as far, or makes it the leader's log that far |
| RaftReorder.OrderIrrelevantIff | mp2/src/raft/raft.go:268-287 | two messages of one leader, each merged or refused, give the same log in either order if and only if neither is refused at first, accepted after the other, and reaches further than it; if both are accepted at first the one reaching further decides |
| RaftReorder.MergeCommutes | mp2/src/raft/raft.go:268-287 | two messages of one leader that a log accepts give the same log in either order, and the first does not make the second unacceptable |
| RaftReorder.StaleChangesNothing | mp2/src/raft/raft.go:268-287 | after an accepted message, the same again or a shorter one changes nothing, whether it is then accepted or not |
| RaftReorder.RequestsCommuteIff | mp2/src/raft/raft.go:268-287 | the same two facts for any requests of one term in transit and any server's log, in every run satisfying H1 |
| RaftReorder.RequestsCommute | mp2/src/raft/raft.go:475-529 | in every run satisfying H1 and H2, any two requests of one leader in transit to a server not ahead of them in term leave it the same log in either order, accepted at first or not |
| RaftFollow.CommitTravels | mp2/src/raft/raft.go:461-480 | in every run that truncates no committed entry, a leader's send puts one request in the network, and whoever accepts that request later has then committed the larger of what it had and what the leader had when it sent, and has applied it |
| RaftFollow.LeadersCommandsApplied | mp2/src/raft/raft.go:293-299 | and under H1 what it has applied are the leader's own commands |
| RaftLimits.FollowerApplies | mp2/src/raft/raft.go:293-299 | a run satisfying H1, H2 and H3 in which a follower applies the command its leader committed |
| RaftLimits.OrderMatters | mp2/src/raft/raft.go:506-508 | a run satisfying H1 and H3 but not H2 with two requests in transit whose order decides how long the receiver's log gets |
| RaftBackOff.BackOffTerminates | mp2/src/raft/raft.go:470-529 | in every run satisfying H1, at every moment at which i leads term t and peer p is alive, if each reply of p in the term answers a request sent since the reply before it: nextIndex[p] is between 1 and the log's length, the heartbeat does not panic, and until the first success the failed replies number the election-time log length less nextIndex[p], so at most that length less one |
| RaftBackOff.FewFailures | mp2/src/raft/raft.go:505-529 | under the same conditions, from any moment of the reign on, fewer replies fail in a row than the leader's log was then long |
| RaftBackOff.PanicsIff | mp2/src/raft/raft.go:475-529 | whatever the peer and the exchanges do: from a moment at which nextIndex was the log's length, the heartbeat panics exactly when the leader lives and as many replies have failed in a row as that log was long |
| RaftBackOff.ResetsNextIndex | mp2/src/raft/raft.go:168-177 | an election and a successful reply are such moments |
| RaftBackOff.RefusedIff | mp2/src/raft/raft.go:243-272 | while no committed command was lost, so under H1 to H3, a live server not ahead in term answers every request in transit, with success exactly if the prefix check passes, which it always does for index 0 |
| RaftLimits.KilledPeerPanics | mp2/src/raft/raft.go:475-529 | a run satisfying H1, H2 and H3 in which a killed peer's reply takes nextIndex to 0 and the next heartbeat panics |
| RaftLimits.OverlapPanics | mp2/src/raft/raft.go:475-529 | a run satisfying H1, H2 and H3 in which two overlapping exchanges with a live peer take nextIndex from 2 to 0 and the next heartbeat panics |
| RaftVotes.TwoVotesIff | mp2/src/raft/raft.go:193-262 | in every run satisfying H1, a server votes for two candidates of a term exactly when it stood in that term, then was stepped down by an append of that very term, and then granted a vote |
| RaftVotes.OneGrantPerTerm | mp2/src/raft/raft.go:201-232 | in every run satisfying H1, the votes a server grants in one term all go to one other server |
| RaftVotes.GrantIff | mp2/src/raft/raft.go:193-233 | in every run satisfying H1, a vote is granted exactly when the voter is alive and not ahead in term, holds no vote of that term for another, and its log is not ahead of the one with which the candidate stood |
| RaftVotes.VotedForIs | mp2/src/raft/raft.go:201-232 | in every run satisfying H1, votedFor is the vote the server cast in its term and has not lost by stepping down in it |
| RaftSteps.LaterTermHeard | mp2/src/raft/raft.go:497-503 | whoever hears of a later term, in a request, as a candidate in a vote reply or as a leader in an append reply, is a follower of that term afterwards, with no vote but one it grants |
| RaftSteps.TermChanges | mp2/src/raft/raft.go:145-233 | a term changes in no other way, but by standing |
| RaftSteps.VoteAnswered | mp2/src/raft/raft.go:193-233 | which term the answer to a vote request names, and that granting is voting and nothing else changes |
| RaftSteps.AppendAnswered | mp2/src/raft/raft.go:238-274 | which append requests are ignored, which are heard, and which term each answer names |
| RaftSteps.Stood | mp2/src/raft/raft.go:159-166 | a time-out leaves a candidate with its own vote counted and an honest request to every other server, whose answer it awaits |
| RaftSteps.VoteCounted | mp2/src/raft/raft.go:563-592 | which vote replies are counted, and that the server leads exactly when more than half have been |
| RaftSteps.Started | mp2/src/raft/raft.go:356-388 | a leader appends the command in its own term and counts itself; anyone else ignores it |
| RaftSteps.ReplyCounted | mp2/src/raft/raft.go:505-529 | a counted success commits up to the largest index that a majority is then known to match; a refusal goes one back |
| RaftSteps.Asked | mp2/src/raft/raft.go:461-480 | a request starts at nextIndex with the entry before it, holds the whole rest of the log, and carries the leader's commit index |
| RaftSteps.FreshServer | mp2/src/raft/raft.go:621-649 | what a new peer starts with |
| RaftLimits.StaleVoteElectsSecondLeader | mp2/src/raft/raft.go:569-588 | a run satisfying H2 and H3 but not H1 in which two servers lead one term |
| RaftLimits.UnsentEntryCommits | mp2/src/raft/raft.go:506-523 | a run satisfying H1 and H3 but not H2 in which two servers apply different commands at index 1 |
| RaftOldTerm.OldEntryIsOverwritten | mp2/src/raft/raft.go:509-522 | a run of five servers satisfying H1 and H2 but not H3 in which two servers apply different commands at index 1 |
| RaftLimits.TwoVotesInOneTerm | mp2/src/raft/raft.go:257-259 | a run of three servers satisfying H1, H2 and H3 in which server 0 stands in term 1, is stepped down by the leader of term 1, and then grants that leader's late vote request |
| RaftNode.Raft.Make | mp2/src/raft/raft.go:621-649 | a new peer is a follower in term 0 whose log holds only the sentinel |
| RaftNode.Raft.Kill | mp2/src/raft/raft.go:401-404 | only the dead flag changes |
| RaftNode.Raft.BecomeFollower | mp2/src/raft/raft.go:145-157 | role, term and vote as given, all else kept |
| RaftNode.Raft.Timeout | mp2/src/raft/raft.go:159-166 | the time-out and the vote arguments stamped by startElection |
| RaftNode.Raft.HandleRequestVote | mp2/src/raft/raft.go:193-233 | new state and reply of the vote handler, in every branch |
| RaftNode.Raft.BecomeLeader | mp2/src/raft/raft.go:168-177 | the loop resets nextIndex and matchIndex for every peer |
| RaftNode.Raft.HandleVoteReply | mp2/src/raft/raft.go:563-592 | the return of a vote call, up to and including promotion |
| RaftNode.Raft.FindConflict | mp2/src/raft/raft.go:275-282 | the loop finds the first position whose term differs or that is past the log |
| RaftNode.Raft.AcceptEntries | mp2/src/raft/raft.go:275-299 | log, commit index and applied messages after an accepted message, or the panic |
| RaftNode.Raft.ApplyCommitted | mp2/src/raft/raft.go:656-678 | the loop applies the indices after lastApplied in order, or runs past the log |
| RaftNode.Raft.HandleAppendEntries | mp2/src/raft/raft.go:238-301 | new state and reply of the append handler, in every branch |
| RaftNode.Raft.StartCommand | mp2/src/raft/raft.go:356-388 | a leader appends the command in its term and counts itself; anyone else does nothing |
| RaftNode.Raft.MakeHeartBeat | mp2/src/raft/raft.go:461-480 | the request always carries the whole suffix of the log |
| RaftNode.Raft.CountMatches | mp2/src/raft/raft.go:510-515 | the inner loop counts the peers that match at least index i |
| RaftNode.Raft.AdvanceCommit | mp2/src/raft/raft.go:509-523 | the downward loop finds the largest index above commitIndex that a quorum matches |
| RaftNode.Raft.HandleAppendReply | mp2/src/raft/raft.go:493-530 | the return of an append call, in every branch |
| IsisOrder.TotalOrder | mp1/mp1_node.py:209-274 | the deliveries of any two nodes, at any two moments of a run, are prefixes of one another |
| IsisOrder.DeliveryIntegrity | mp1/isis.py:54-115 | deliveries strictly increase in agreed priority, hold only messages that were sent, unaltered, and none twice |
| IsisOrder.SamePriority | mp1/mp1_node.py:236-252 | two nodes deliver a message with the same priority and content |
| IsisOrder.UniquePriorities | mp1/isis.py:30-36 | in every state no two queued entries share a priority, and the integer part of proSeq is the number of messages received |
| IsisOrder.TenNodes | mp1/isis.py:21-30 | node ids keep proposals of different nodes apart exactly if there are at most ten |
| IsisOrder.AgreementIsCausal | mp1/mp1_node.py:254-268 | an agreement handled at a node was proposed by some node in an earlier step, and the receiver already holds everything that proposer held then |
| IsisOrder.LaterProposalsExceed | mp1/isis.py:30-36 | everything a node proposes after handling an agreement is larger than the agreed priority, although agreeing raises no counter |
| IsisOrder.DownClosed | mp1/isis.py:93-108 | a node that delivered a message has delivered every message agreed at most that late |
| IsisFlood.AgreementsPassedOn | mp1/mp1_node.py:256-268 | in every run, what one node has agreed every other has agreed too or will get from that very node, whatever the other channels do |
| IsisFlood.MessagesPassedOn | mp1/mp1_node.py:209-230 | the same for received messages |
| IsisFlood.ProposalFollowsMessage | mp1/mp1_node.py:209-236 | an originator that handles a proposal has already received the message, because passing on comes before proposing |
| IsisFlood.FreshNode | mp1/mp1_node.py:23-49 | what a new node starts with |
| IsisRuns.RunKeeps | mp1/mp1_node.py:206-274 | the whole-system invariant over nodes, channels and decisions holds at every moment of every run |
| IsisRuns.AgreementKnown | mp1/mp1_node.py:254-264 | the receiver of an agreement knows the message and everything its winning proposer had received |
| IsisRuns.FullListFacts | mp1/mp1_node.py:236-248 | a full proposal list has one proposal of every node, all of which had received the message, and nothing was decided before |
| IsisNodes.SettledKeeps | mp1/isis.py:62-108 | settling an agreed message and draining the queue keeps a node's invariant: nothing lost, order kept, head undeliverable |
| IsisNodes.OwnAtMost | mp1/isis.py:49-52 | the agreed priority is at least the node's own proposal |
| IsisQuiet.QuietAgreement | mp1/mp1_node.py:209-274 | with all channels empty every queue is empty, all delivery sequences are equal, and they hold exactly the messages sent |
| IsisQuiet.QuietOnce | mp1/mp1_node.py:211-248 | by then every message was proposed by each node in exactly one step and decided in exactly one step |
| IsisHeap.LockstepIff | mp1/isis_new.py:20-87 | over any sequence of calls that bring no equal priority into the heap, the heap and the sorted list stay the same queue and give the same priorities and deliveries, call after call, if and only if each agreement settles, of the message's entries, the one of least priority |
| IsisHeap.Lockstep | mp1/isis_new.py:20-87 | the two objects, driven by such calls, give the same answers and end in the same state |
| IsisHeap.SettleSortsIff | mp1/isis.py:72-92 | taking out the entry the heap's scan finds and putting in the settled one does what the list does exactly if that entry is the message's least |
| IsisLimits.RepeatedIdDiffers | mp1/isis.py:72-92 | six calls from empty queues, no priority ever equal to another, after which the heap delivers three entries and the list one, because a message queued twice was settled at another entry |
| IsisLimits.RightOfEqual | mp1/isis_new.py:66 | of two equal children heapq moves the right one up |
| IsisHeap.Heap.SiftDown | mp1/isis_new.py:67 | heapq._siftdown restores the heap above a position and keeps the items |
| IsisHeap.Heap.SiftUp | mp1/isis_new.py:66 | heapq._siftup restores the heap below a position and keeps the items |
| IsisHeap.Heap.Push | mp1/isis_new.py:32 | heapq.heappush: still a heap, one item more |
| IsisHeap.Heap.Pop | mp1/isis_new.py:79 | heapq.heappop: the root is returned, still a heap, one item less |
| IsisHeap.Heap.RemoveAt | mp1/isis_new.py:62-67 | swapping in the last item and sifting both ways removes exactly that item and leaves a heap |
| IsisHeap.HeapIsis.constructor | mp1/isis.py:17-22 | both counters start at the node's id in tenths, the queue empty |
| IsisHeap.HeapIsis.ProposeSeq | mp1/isis.py:24-41 | the heap's list after the push, exactly, and the sorted list's result and state |
| IsisHeap.HeapIsis.DecideSeq | mp1/isis.py:44-52 | the largest proposal is returned and raises agrSeq |
| IsisHeap.HeapIsis.SettleItem | mp1/isis.py:62-92 | the first queued entry of the message gets the agreed priority, wherever in the heap it was, and the heap's list is exactly what heapq makes of it; an unknown one is ignored; it is the sorted list's step exactly when that entry is the message's least |
| IsisHeap.HeapIsis.PopReady | mp1/isis.py:95-108 | the loop pops exactly the deliverable front of the sorted order |
| IsisHeap.HeapIsis.DeliverMsg | mp1/isis.py:54-115 | the heap's list and the deliveries, exactly; they are the sorted list's result and state exactly when the settled entry is the message's least |
| IsisHeap.RootIsLeast | mp1/isis.py:95-97 | the root of a heap has the smallest priority |
| IsisQueue.SortedUnique | mp1/isis_l.py:20-34 | a list of strictly increasing priorities is determined by its items |
| IsisQueue.InsertKeepsSorted | mp1/isis_l.py:29-30 | inserting at the binary-search position keeps the order |
| IsisQueue.FlooredProposal | mp1/isis.py:30-36 | a proposal is the least number of the node's own residue whose integer part exceeds everything the node proposed or decided |
| IsisQueue.PlainProposal | mp1/isis_new.py:26-31 | without the floor it is exactly one more than the larger of the two |
| IsisQueue.UnknownIgnored | mp1/isis.py:72-92 | an agreement for a message that is not queued changes nothing and delivers nothing |
| IsisList.SortedIsis.BisectLeft | mp1/isis_l.py:29 | binary search finds the position that separates smaller from not smaller |
| IsisList.SortedIsis.ProposeSeq | mp1/isis_l.py:20-34 | result and new state of a proposal |
| IsisList.SortedIsis.DecideSeq | mp1/isis_l.py:36-44 | result and new state of a decision |
| IsisList.SortedIsis.DeliverMsg | mp1/isis_l.py:46-69 | result and new state of a delivery |
| IsisMember.Member.constructor | mp1/mp1_node.py:23-49 | a new node has received, listed, agreed and delivered nothing |
| IsisMember.Member.HandleMessage | mp1/mp1_node.py:207-230 | the object's new state and what it sends for a message, seen or new |
| IsisMember.Member.HandlePropose | mp1/mp1_node.py:234-254 | the object's new state and what it sends for a proposal, the last one or not |
| IsisMember.Member.HandleAgree | mp1/mp1_node.py:256-274 | the object's new state, what it sends and what it hands to the bank for an agreement, seen or new |
| IsisMember.Member.UpdateAccounts | mp1/mp1_node.py:269-272 | the loop hands on every delivered message in order, so the balances are those of the deliveries |
| IsisMember.Member.HandlePacket | mp1/mp1_node.py:206-274 | one turn of the receive loop, whatever the packet: the object's new state and what it sends |
| IsisMember.HandleIsReact | mp1/mp1_node.py:206-274 | a step of the system is exactly the object's change and its sends |
| IsisMember.AlwaysClean | mp1/isis.py:72-92 | in every run each packet is handled without equal priorities in the heap and settles a message queued once, so the comparison never reaches the messages |
| Bank.AccountCtl.UpdateBalance | mp1/account.py:8-21 | the balances after a deposit, a covered transfer and an uncovered one |
| Bank.ApplyTotal | mp1/account.py:14-20 | a deposit adds its amount to the total and a transfer changes nothing in it |
| Bank.DepositAdds | mp1/account.py:14-15 | a deposit adds its amount to its own account and to no other |
| Bank.TransferMoves | mp1/account.py:17-20 | a transfer its source can cover takes exactly its amount from the source and adds it to the target, which may be the source; one it cannot cover moves nothing |
| Bank.LedgerIsWorth | mp1/account.py:14-20 | an account holds its deposits and incoming covered transfers less the outgoing ones |
| Bank.BalanceIsWorth | mp1/mp1_node.py:269-272 | so it does at every node and moment of every run, for the messages delivered there |
| Bank.LedgerSound | mp1/account.py:14-20 | the balances sum to all deposits, and with no negative amount none is negative |
| Bank.Replicated | mp1/mp1_node.py:269-272 | two nodes that delivered the same number of messages hold the same balances |
| Bank.NeverOverdrawn | mp1/account.py:17-20 | in a run that sends no negative amount no balance of any node is ever negative, and they sum to the delivered deposits |
| Wire.FrameRoundTrip | mp1/message.py:23-87 | a frame of blank-free fields parses back to its message, and is 256 characters exactly if its line is at most that long |
| Wire.StreamRoundTrip | mp1/message.py:74-87 | any list of such messages survives printing, concatenation, cutting every 256 characters and parsing |
| Wire.Receive | mp1/mp1_node.py:166-206 | the loop reads exactly the parsed pieces, skips the blank ones, and stops at the first that does not parse |
| Wire.ParseWords | mp1/message.py:43-67 | parsing words that begin with those of a message gives the message back, whatever follows, for every kind and type, its priority and node read as numbers |
| Wire.ParseSound | mp1/message.py:43-67 | only such words parse to a message, up to how its numbers are written |
| Wire.LeadingBlanks | mp1/message.py:24 | blanks in front of a frame do not matter |
| Wire.PrintedWords | mp1/message.py:74-87 | the words printed for a message, a proposal and an agreement |
| Wire.CutIs | mp1/mp1_node.py:166-206 | all pieces but the last are 256 characters, the last is not empty, and together they are the stream |
| Wire.FilledIs | mp1/mp1_node.py:198-201 | a piece is left out exactly if it is blank |
| Wire.SplitJoin | mp1/message.py:24 | splitting a joined line gives the words back |
| TwoPhaseProof.Atomicity | mp3/server/server.go:799-842 | if any server ever calls DoCommit, every server's check had succeeded by then, and no server calls DoAbort at any moment of the run, nor DoCommit twice |
| TwoPhaseProof.DrainedOutcome | mp3/server/server.go:557-614 | once everything in transit is handled and the client has ended, all committed once or all aborted, all committed exactly if every check succeeded; the exact exception is an operation failing on the coordinator's own branch, after which no other server has heard anything |
| TwoPhaseLimits.LocalFailureIsReached | mp3/server/server.go:557-614 | a run that ends so: the coordinator has aborted, everything is handled, and another server keeps the tentative write |
| TwoPhaseProof.FourReady | mp3/server/server.go:811-818 | four counted READY replies mean that all five servers voted yes |
| TwoPhaseProof.RunKeeps | mp3/server/server.go:557-847 | the transaction is working, doomed or voting, with the channel contents of that phase, at every moment of every run |
| TwoPhaseClient.ClientIsTold | mp3/server/server.go:557-847 | at every moment of every run, unless the coordinator's own call did not return, the client has been told of the end exactly if the coordinator has committed or aborted |
| TwoPhaseClient.OwnBranchAnswer | mp3/server/server.go:557-614 | after an operation on the coordinator's own branch the client may go on, waits or is told, as the operation was done, must wait or failed |
| TwoPhaseClient.OtherBranchAnswer | mp3/server/server.go:557-614 | another branch reports good or bad exactly as the operation went there, and nothing while it must wait |
| TxHistory.AccountIs | mp3/server/server.go:255-546 | at every moment of every run an account is open exactly if a deposit opened it whose transaction was not aborted since, holds what commits added since, each its own and the earlier pending amounts, and names the last to commit |
| TxHistory.ReadIs | mp3/server/server.go:163-253 | the requests before a read settle its answer: refused if the account is not open or the last to commit was not earlier; else the committed value if nothing up to the reader is pending; else its own view with the earlier pending amounts if it wrote; else it must wait |
| TxHistory.ReadsOwnWrites | mp3/server/server.go:219-221 | with one live writer per account, on a server that commits last, a reader that wrote the account gets the committed amounts and its own accepted ones |
| TxHistory.WriteIs | mp3/server/server.go:255-327 | a write is accepted exactly when the account is open or it is a deposit, no later transaction's reading is on record, and no write is pending there or the last to commit was earlier |
| TxHistory.WriteAcceptedIff | mp3/server/server.go:285-289 | the same by requests alone, as long as no later reader was aborted |
| TxHistory.ReadThenWrite | mp3/server/server.go:285-289 | a transaction that has just read the committed value may write the account if no later transaction has read it |
| TxHistory.RefusedDepositOpens | mp3/server/server.go:259-275 | a refused deposit still opens a missing account, until the abort that follows |
| TxHistory.RecordIs | mp3/server/server.go:212-217 | whoever is on the record of an account has read its committed value, and who has is on it until aborted |
| TxHistory.RecordGrows | mp3/server/server.go:212-217 | a reading of the committed value is put at the end of the record, and nothing else is |
| TxHistory.PrepareIs | mp3/server/server.go:479-514 | a check succeeds exactly when the transaction has nothing pending here, or every account ever written has, with what was accepted up to it, at least nothing |
| TxHistory.CheckIff | mp3/server/server.go:494-508 | with one live writer per account and no earlier write pending: exactly when the committed amounts and the transaction's own are nowhere negative in sum |
| TxHistory.UnwrittenVotesYes | mp3/server/server.go:479-492 | a server the transaction has not written votes yes |
| TxHistory.CommitReturnsExactly | mp3/server/server.go:516-546 | a commit returns exactly if no account has a later transaction's write pending and every account the transaction wrote is open |
| TxHistory.OneEntryEach | mp3/server/server.go:289-315 | a transaction has at most one tentative entry in each list |
| TxLimits.WholeBalance | mp3/server/server.go:163-546 | a run in which a transaction reads its own deposit, another reads, withdraws all of it after its own reading, passes its check at exactly zero, and commits |
| TxReads.RepeatableRead | mp3/server/server.go:163-253 | on every run of a server that never aborts what it committed, two answered reads of an account by a transaction that did not write it and was not aborted in between return the same value |
| TxWorld.ServersAreGoverned | mp3/server/server.go:557-847 | in every run of all transactions together on shared stores, at every server whose calls returned: it never aborts what it committed, and commits nothing without a successful check after the transaction's last write |
| TxWorld.ReadsRepeat | mp3/server/server.go:163-253 | so two answered reads there, by a transaction that only reads the account in between, agree |
| TxWorld.BooksAreSound | mp3/server/server.go:479-546 | and with one live writer per account every committed value there is the sum of the committed accepted amounts and never negative |
| TxWorld.EachIsAtomic | mp3/server/server.go:799-842 | whatever the other transactions do, once any server commits one, every server had voted yes for it and none ever aborts it |
| TxWorld.ProjectedIsRun | mp3/server/server.go:557-847 | what one transaction sees of such a run is a run of the commit protocol |
| TxWorld.ServedIsRun | mp3/server/server.go:557-614 | what one server does in it is a run of that server |
| TxSystem.ProtocolCommitsLast | mp3/server/server.go:769-842 | a server all of whose transactions run under the commit protocol never aborts what it committed |
| TxSystem.ReadsRepeat | mp3/server/server.go:163-253 | so on such a server two answered reads of an account by a transaction that only reads it agree |
| TxSystem.ProtocolChecksFirst | mp3/server/server.go:799-842 | on such a server every commit follows a successful check of that transaction, with no write of it in between |
| TxSystem.BooksAreSound | mp3/server/server.go:479-546 | on such a server, with one live writer per account, every committed value is the sum of the committed accepted amounts and never negative |
| TxReads.InterveningCommit | mp3/server/server.go:189-192 | whatever the first reading returned, a commit to the account in between makes the second read fail, unless the transaction that opened the account is aborted in between |
| TxReads.InterveningCommitRefuses | mp3/server/server.go:189-192 | so it always fails when the opener had committed by the first reading |
| TxLimits.LostOpenerReadsAgain | mp3/server/server.go:470-474 | a run, committing last, in which the opener's abort deletes the account with what another had committed to it, and the second read returns 0 again |
| TxReads.ReadBlocksEarlierWrites | mp3/server/server.go:285-289 | a recorded read refuses every later write of an earlier transaction |
| TxReads.RunOpen | mp3/server/server.go:265-275 | an account whose creating deposit is uncommitted still has it pending, and holds nothing unless a later transaction committed to it |
| TxLimits.LateAbortChangesReading | mp3/server/server.go:470-474 | a run in which an abort of a committed transaction deletes the account and a second read returns 0 instead of 10 |
| TxLedger.LedgerExact | mp3/server/server.go:516-546 | if transactions commit with no other write pending on their accounts, every committed value is the sum of the accepted amounts of committed transactions |
| TxLedger.PendingIsAccepted | mp3/server/server.go:289-315 | a transaction's pending entry is the sum of the amounts accepted from it |
| TxLedger.CommitAddsExactlyIff | mp3/server/server.go:520-531 | a commit adds the transaction's own amount exactly if the earlier pending writes sum to nothing |
| TxLedger.NeverNegative | mp3/server/server.go:494-508 | with one live writer per account and commits only after a successful check, no committed value is ever negative |
| TxLedger.CommitReturnsIff | mp3/server/server.go:523-533 | with one live writer per account DoCommit returns exactly if the server holds no tentative write of a later transaction |
| TxLimits.TwoWriters | mp3/server/server.go:516-546 | a run from the empty store with two live writers of one account: committing the earlier first never returns, and committing the later first counts the earlier amount twice |
| TxStore.AbortReturnsIff | mp3/server/server.go:460-468 | DoAbort returns exactly if every read list holds as many readings of other transactions as there are lists |
| TxLimits.AbortPanics | mp3/server/server.go:460-468 | a run from the empty store after which aborting an account's only reader panics |
| TxStore.AbortKeepsOthers | mp3/server/server.go:445-475 | aborting leaves the other transactions' entries and readings of every account, in their order and number, and drops no account others opened |
| TxStore.ScanIs | mp3/server/server.go:461-467 | the loop over one read list ends normally exactly if enough other readings are in it, and removes none of them |
| TxStore.ScanCuts | mp3/server/server.go:461-467 | it stops right behind as many other readings as there are lists, removing the transaction's readings before that point and leaving those behind it |
| TxServer.FindMax | mp3/server/server.go:29-37 | the largest element |
| TxServer.Server.Version | mp3/server/server.go:193-208 | the loop sums the tentative writes not after ts, and detects whether one is its own and whether there is none |
| TxServer.Server.Read | mp3/server/server.go:163-253 | the answer and the recorded reading, in every branch |
| TxServer.Server.Write | mp3/server/server.go:255-327 | acceptance and the new tentative write, in every branch |
| TxServer.RemoveWrites | mp3/server/server.go:448-457 | the removal loop leaves the other transactions' entries in order |
| TxServer.RemoveReads | mp3/server/server.go:461-467 | the removal loop as written, including running off the end of the list |
| TxServer.Server.DoAbort | mp3/server/server.go:445-477 | the three maps after an abort, or that it panics |
| TxServer.Server.CheckCommit | mp3/server/server.go:479-514 | false exactly if the transaction wrote here and some account would be negative, and then the transaction is aborted, or the abort panics; true changes nothing |
| TxServer.CommitWrites | mp3/server/server.go:520-533 | the loop sums and removes, or is stuck exactly if the list holds a later entry |
| TxServer.Server.DoCommit | mp3/server/server.go:516-546 | returns exactly if no list holds a later entry and every written account exists, and then the maps it leaves |
| TxServer.Server.Serve | mp3/server/server.go:557-614 | a request together with the abort that follows when it fails |

## Left out

- Node failures in `mp1` (`mp1/mp1_node.py:167-196`, `mp1/isis.py:117-129`): the code removes list and heap elements while iterating over them, and stored proposals carry the originator's id, so the intended cleanup is not what runs.
- `mp1/mp1_node_new.py`: a superseded variant; the launcher runs `mp1_node.py`.
- Lock-level interleavings in all three programs: a handler body is one atomic step. In `mp3` another goroutine could run between a failed operation and its `DoAbort`.
- Rounding of the floating-point priorities: sums of tenths are taken as exact.
- Integer widths: terms, indices, amounts and timestamps are unbounded.
- Wire.ParseWords: covers the lines the program prints; words it never prints (other types or kinds, signs, underscores and exponents that Python's `int` and `float` accept, priorities with more or fewer than one digit after the point) are rejected here. Characters stand for bytes, and a read of 256 returns a whole frame. Words read from the terminal are not parsed.
- Wire.StreamRoundTrip: only the blanks that pad a frame are stripped, so fields may hold other white space only where Python's `strip` does not reach it.
- The printed balances (`mp1/account.py:24-34`) and the transaction log.
- Liveness of Raft: elections, retries and timers are steps that may happen; nothing is said about when.
- RPC transport (`mp2/src/labrpc`, `mp2/src/labgob`), the test harness and restarts: the network may lose, delay, reorder and repeat messages; a killed server takes no step of its own; no server restarts with its stored state.
- The wait loop of `read` (`mp3/server/server.go:225-240`), whose flag is never set back: a read that must wait is answered `Blocked` and changes nothing.
- TxServer.Server.Read: the `Blocked` answer stands for the wait; what a read returns after it is a new request.
- Serializability in `mp3`: the committed timestamp is not compared when no write is pending (`mp3/server/server.go:285`, against the rule in the comment above it), so it is not monotone and the claim would be false.
- TxReads.RepeatableRead: the read lists of an aborted transaction matter only to it, so nothing is claimed across an abort of the reader.
- Coalesced or split reads on the `mp3` connections: one read returns one line.
- TxWorld.ServersAreGoverned: only for a server all of whose calls returned; a server whose call panicked or never ends is recorded as such in `TwoPhase` and may go on, but nothing is claimed of its later requests.
- The clients, configuration files, sockets, generators, logs and plots, and all of `mp0`.
