/**
  What each Raft handler computes, as a function of the node's state.

  `RaftNode` (the class) is proved to compute exactly these; the cluster theorems are about these.
*/
module RaftHandlers {
  import opened Commands
  import opened RaftTypes

  function Majority(s: NodeState): nat { (|s.peers| + 1) / 2 + 1 }

  /** A leader can build a message for each peer: the two assertions of the message builder hold. */
  predicate LeaderReady(s: NodeState) {
    s.role == Leader ==>
      forall p :: p in s.peers ==> p in s.nextIndex && 1 <= s.nextIndex[p] <= |s.log|
  }

  predicate Sane(s: NodeState) {
    && |s.log| >= 1
    && s.commitIndex < |s.log|
    && LeaderReady(s)
  }

  // ---------------------------------------------------------------- building blocks

  function MakeAppendEntries(s: NodeState, peer: NodeId): Message
    requires peer in s.nextIndex && 1 <= s.nextIndex[peer] <= |s.log|
  {
    var next := s.nextIndex[peer];
    AppendEntries(s.currentTerm, s.id, next - 1, s.log[next - 1].term, s.log[next..], s.commitIndex)
  }

  function Heartbeats(s: NodeState): set<Packet>
    requires Sane(s) && s.role == Leader
  {
    set p | p in s.peers :: Packet(p, MakeAppendEntries(s, p))
  }

  function Reply(r: Responder, success: bool, result: Option<Value>, note: Note, term: nat): Packet {
    Packet(r.clientId, ClientResponse(r.requestId, success, result, note, term))
  }

  function StepDown(s: NodeState, newTerm: nat): Effect {
    Effect(
      s.(currentTerm := newTerm, role := Follower, votedFor := None, leaderId := None, pending := map[]),
      set k | k in s.pending :: Reply(s.pending[k], false, None, LeadershipChanged, newTerm))
  }

  function Restart(s: NodeState): NodeState {
    s.(role := Follower, leaderId := None, votesReceived := {}, nextIndex := map[], matchIndex := map[],
       pending := map[])
  }

  /** The state machine after executing `entries` in order. */
  function Replay(db: map<Key, Value>, entries: seq<LogEntry>): map<Key, Value> {
    if |entries| == 0 then db
    else Apply(Replay(db, entries[..|entries| - 1]), entries[|entries| - 1].command)
  }

  /** The keys under which requests waiting for the entries in `(from, to]` are filed. */
  function AppliedKeys(log: seq<LogEntry>, from: nat, to: nat): set<(nat, nat)>
    requires to < |log|
  {
    set i: nat | from < i <= to :: (i, log[i].term)
  }

  function ApplyCommitted(s: NodeState): Effect
    requires s.commitIndex < |s.log|
  {
    if s.lastApplied < s.commitIndex then
      Effect(
        s.(lastApplied := s.commitIndex,
           db := Replay(s.db, s.log[s.lastApplied + 1..s.commitIndex + 1]),
           pending := s.pending - AppliedKeys(s.log, s.lastApplied, s.commitIndex)),
        set i: nat | s.lastApplied < i <= s.commitIndex && (i, s.log[i].term) in s.pending ::
          Reply(s.pending[(i, s.log[i].term)], true, None, Applied(i), s.log[i].term))
    else Effect(s, {})
  }

  // ---------------------------------------------------------------- elections

  function BecomeLeaderState(s: NodeState): NodeState {
    s.(role := Leader, leaderId := Some(s.id),
       nextIndex := s.nextIndex + map p | p in s.peers :: |s.log|,
       matchIndex := s.matchIndex + map p | p in s.peers :: 0)
  }

  function BecomeLeader(s: NodeState): Effect
    requires Sane(s)
  {
    var s' := BecomeLeaderState(s);
    Effect(s', Heartbeats(s'))
  }

  function BecomeCandidate(s: NodeState): NodeState {
    s.(role := Candidate, leaderId := None, currentTerm := s.currentTerm + 1, votedFor := Some(s.id),
       votesReceived := {s.id})
  }

  function VoteRequest(s: NodeState): Message
    requires |s.log| >= 1
  {
    RequestVote(s.currentTerm, s.id, |s.log| - 1, s.log[|s.log| - 1].term)
  }

  function StartElection(s: NodeState): Effect
    requires Sane(s)
  {
    var s' := BecomeCandidate(s);
    if |s'.votesReceived| >= Majority(s') then BecomeLeader(s')
    else Effect(s', set p | p in s'.peers :: Packet(p, VoteRequest(s')))
  }

  function HandleVoteResponse(s: NodeState, m: Message): Effect
    requires Sane(s) && m.RequestVoteResponse?
  {
    if m.term > s.currentTerm then StepDown(s, m.term)
    else if m.term < s.currentTerm || s.role != Candidate then Effect(s, {})
    else
      var s' := if m.voteGranted then s.(votesReceived := s.votesReceived + {m.voterId}) else s;
      if |s'.votesReceived| >= Majority(s') then BecomeLeader(s') else Effect(s', {})
  }

  /** Section 5.4.1 of the Raft paper: the candidate's log is at least as up to date as ours. */
  predicate UpToDate(lastIndex: nat, lastTerm: nat, log: seq<LogEntry>)
    requires |log| >= 1
  {
    var mine := log[|log| - 1].term;
    lastTerm > mine || (lastTerm == mine && lastIndex >= |log| - 1)
  }

  function HandleRequestVote(s: NodeState, m: Message): (Effect, Message)
    requires Sane(s) && m.RequestVote?
  {
    if m.term < s.currentTerm then
      (Effect(s, {}), RequestVoteResponse(s.currentTerm, s.id, false))
    else
      var e := if m.term > s.currentTerm then StepDown(s, m.term) else Effect(s, {});
      var s' := e.state;
      var granted := (s'.votedFor.None? || s'.votedFor.value == m.candidateId)
                     && UpToDate(m.lastLogIndex, m.lastLogTerm, s'.log);
      (Effect(if granted then s'.(votedFor := Some(m.candidateId)) else s', e.sent),
       RequestVoteResponse(s'.currentTerm, s'.id, granted))
  }

  // ---------------------------------------------------------------- replication

  /** How many of `entries`, laid at index `at`, the log already holds (comparing terms). */
  function Agreeing(log: seq<LogEntry>, at: nat, entries: seq<LogEntry>): nat
    decreases |entries|
  {
    if |entries| == 0 || at >= |log| || log[at].term != entries[0].term then 0
    else 1 + Agreeing(log, at + 1, entries[1..])
  }

  lemma AgreeingBound(log: seq<LogEntry>, at: nat, entries: seq<LogEntry>)
    ensures Agreeing(log, at, entries) <= |entries|
    ensures Agreeing(log, at, entries) > 0 ==> at + Agreeing(log, at, entries) <= |log|
    ensures forall k :: 0 <= k < Agreeing(log, at, entries) ==> log[at + k].term == entries[k].term
    ensures var n := Agreeing(log, at, entries);
            n < |entries| && at + n < |log| ==> log[at + n].term != entries[n].term
    decreases |entries|
  {
    if |entries| == 0 || at >= |log| || log[at].term != entries[0].term {
    } else {
      AgreeingBound(log, at + 1, entries[1..]);
      forall k | 0 <= k < Agreeing(log, at, entries) ensures log[at + k].term == entries[k].term {
        if k > 0 {
          assert log[at + 1 + (k - 1)].term == entries[1..][k - 1].term;
        }
      }
    }
  }

  /** The follower's log after it takes in `entries` at index `at`: cut at the first conflict, if any. */
  function Reconcile(log: seq<LogEntry>, at: nat, entries: seq<LogEntry>): (r: seq<LogEntry>)
    requires at <= |log|
    ensures |r| >= at + |entries| && r[..at] == log[..at]
    ensures forall k :: 0 <= k < |entries| ==> r[at + k].term == entries[k].term
    ensures |r| > at + |entries| ==> r == log
  {
    AgreeingBound(log, at, entries);
    var n := Agreeing(log, at, entries);
    if n == |entries| then log else log[..at + n] + entries[n..]
  }

  /** The test a follower makes before it takes any entry. */
  predicate Accepts(s: NodeState, m: Message)
    requires m.AppendEntries?
  {
    m.term >= s.currentTerm && m.prevLogIndex < |s.log| && s.log[m.prevLogIndex].term == m.prevLogTerm
  }

  /** The follower's state just before it applies what became committed. */
  function TakeEntries(s: NodeState, m: Message): NodeState
    requires Sane(s) && m.AppendEntries? && m.prevLogIndex < |s.log|
  {
    var log' := Reconcile(s.log, m.prevLogIndex + 1, m.entries);
    s.(log := log', commitIndex := Min(m.leaderCommit, |log'| - 1))
  }

  /** A node that hears from a leader of its term, or a newer one, follows it. */
  function Follow(s: NodeState, m: Message): Effect
    requires m.AppendEntries?
  {
    var e := if m.term > s.currentTerm then StepDown(s, m.term) else Effect(s, {});
    Effect(e.state.(role := Follower, leaderId := Some(m.leaderId)), e.sent)
  }

  function HandleAppendEntries(s: NodeState, m: Message): (Effect, Message)
    requires Sane(s) && m.AppendEntries?
  {
    if m.term < s.currentTerm then
      (Effect(s, {}), AppendEntriesResponse(s.currentTerm, s.id, false, |s.log| - 1))
    else
      var e := Follow(s, m);
      if !Accepts(s, m) then
        (e, AppendEntriesResponse(m.term, s.id, false, |s.log| - 1))
      else
        var a := ApplyCommitted(TakeEntries(e.state, m));
        (Effect(a.state, e.sent + a.sent),
         AppendEntriesResponse(m.term, s.id, true, m.prevLogIndex + |m.entries|))
  }

  function Replicas(s: NodeState, index: nat): set<NodeId> {
    set p | p in s.matchIndex && s.matchIndex[p] >= index
  }

  /** Section 5.4.2 of the Raft paper: only entries of the leader's own term are counted. */
  predicate Committable(s: NodeState, index: nat) {
    index < |s.log| && s.log[index].term == s.currentTerm && |Replicas(s, index)| + 1 >= Majority(s)
  }

  /** The commit index after examining the indices up to `upTo`: the last committable one above it. */
  function ScanCommit(s: NodeState, upTo: nat): nat {
    if upTo <= s.commitIndex then s.commitIndex
    else if Committable(s, upTo) then upTo
    else ScanCommit(s, upTo - 1)
  }

  lemma {:induction false} ScanCommitBound(s: NodeState, upTo: nat)
    requires s.commitIndex < |s.log|
    ensures s.commitIndex <= ScanCommit(s, upTo) < |s.log|
    ensures ScanCommit(s, upTo) == s.commitIndex || Committable(s, ScanCommit(s, upTo))
    ensures forall i :: ScanCommit(s, upTo) < i <= upTo ==> !Committable(s, i)
  {
    if upTo > s.commitIndex && !Committable(s, upTo) {
      ScanCommitBound(s, upTo - 1);
    }
  }

  function UpdateCommitIndex(s: NodeState): Effect
    requires Sane(s)
  {
    ScanCommitBound(s, |s.log| - 1);
    ApplyCommitted(s.(commitIndex := ScanCommit(s, |s.log| - 1)))
  }

  /** What the source asserts when a response reaches a leader of the same term. */
  predicate ResponseInRange(s: NodeState, m: Message)
    requires m.AppendEntriesResponse?
  {
    s.role == Leader && m.term == s.currentTerm ==>
      if m.success then m.matchIndex < |s.log|
      else m.followerId in s.nextIndex && 1 <= s.nextIndex[m.followerId] <= |s.log|
  }

  function HandleAppendEntriesResponse(s: NodeState, m: Message): Effect
    requires Sane(s) && m.AppendEntriesResponse? && ResponseInRange(s, m)
  {
    if m.term > s.currentTerm then StepDown(s, m.term)
    else if s.role != Leader || m.term < s.currentTerm then Effect(s, {})
    else if m.success then
      UpdateCommitIndex(s.(matchIndex := s.matchIndex[m.followerId := m.matchIndex],
                           nextIndex := s.nextIndex[m.followerId := m.matchIndex + 1]))
    else
      var next := s.nextIndex[m.followerId];
      var s' := s.(nextIndex := s.nextIndex[m.followerId := if next > 1 then next - 1 else next]);
      Effect(s', {Packet(m.followerId, MakeAppendEntries(s', m.followerId))})
  }

  function AppendEntry(s: NodeState, c: Command): NodeState {
    s.(log := s.log + [LogEntry(s.currentTerm, c)])
  }

  function AppendCommand(s: NodeState, c: Command): Effect
    requires Sane(s) && s.role == Leader
  {
    var s' := AppendEntry(s, c);
    if |s.peers| == 0 then UpdateCommitIndex(s') else Effect(s', Heartbeats(s'))
  }

  function SubmitWrite(s: NodeState, c: Command, r: Responder): Effect
    requires Sane(s)
  {
    if s.role != Leader then
      Effect(s, {Reply(r, false, None, NotLeader(s.leaderId), s.currentTerm)})
    else
      var e := AppendCommand(s, c);
      var index := |s.log|;
      if e.state.lastApplied >= index then
        Effect(e.state, e.sent + {Reply(r, true, None, Applied(index), s.currentTerm)})
      else
        Effect(e.state.(pending := e.state.pending[(index, s.currentTerm) := r]), e.sent)
  }

  // ---------------------------------------------------------------- dispatch

  predicate CanHandle(s: NodeState, m: Message) {
    Sane(s) && (m.AppendEntriesResponse? ==> ResponseInRange(s, m))
  }

  function HandleMessage(s: NodeState, m: Message): Effect
    requires CanHandle(s, m)
  {
    match m
    case RequestVote(_, c, _, _) =>
      var (e, r) := HandleRequestVote(s, m); Effect(e.state, e.sent + {Packet(c, r)})
    case RequestVoteResponse(_, _, _) => HandleVoteResponse(s, m)
    case AppendEntries(_, l, _, _, _, _) =>
      var (e, r) := HandleAppendEntries(s, m); Effect(e.state, e.sent + {Packet(l, r)})
    case AppendEntriesResponse(_, _, _, _) => HandleAppendEntriesResponse(s, m)
    case ClientCommand(c) =>
      if s.role == Leader then AppendCommand(s, c)
      else if s.leaderId.Some? then Effect(s, {Packet(s.leaderId.value, m)})
      else Effect(s, {})
    case ClientRequest(q, client, c) => SubmitWrite(s, c, RaftClient(client, q))
    case ClientQuery(q, client, k) =>
      Effect(s, {Reply(RaftClient(client, q), true, Get(s.db, k), ReadFrom(s.id), s.currentTerm)})
    case StatusQuery(q, client) =>
      Effect(s, {Reply(RaftClient(client, q), true, None, StatusOk(s.role), s.currentTerm)})
    case ClientResponse(_, _, _, _, _) => Effect(s, {})
    case Timeout => StartElection(s)
  }
}
