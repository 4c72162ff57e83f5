/** The Raft node as the program runs it: an object updated in place, proved against the handler functions. */
module RaftNodeModule {
  import opened Commands
  import opened Sequences
  import opened RaftTypes
  import opened RaftHandlers

  // ---------------------------------------------------------------- lemmas about the loops

  lemma SeqSetPush<T>(s: seq<T>, x: T)
    ensures SeqSet(s + [x]) == SeqSet(s) + {x}
  {}

  lemma {:induction false} AgreeingSnoc(log: seq<LogEntry>, at: nat, es: seq<LogEntry>, e: LogEntry)
    ensures var n, idx := Agreeing(log, at, es), at + |es|;
            Agreeing(log, at, es + [e]) ==
            if n == |es| && idx < |log| && log[idx].term == e.term then n + 1 else n
    decreases |es|
  {
    if |es| == 0 {
      assert (es + [e])[1..] == [];
    } else {
      assert (es + [e])[1..] == es[1..] + [e];
      AgreeingSnoc(log, at + 1, es[1..], e);
    }
  }

  /** What one turn of the follower's loop does with entry `e` at index `idx`. */
  function TakeOne(log: seq<LogEntry>, idx: nat, e: LogEntry): seq<LogEntry>
    requires idx <= |log|
  {
    if idx < |log| then (if log[idx].term != e.term then log[..idx] + [e] else log) else log + [e]
  }

  lemma ReconcileIs(log: seq<LogEntry>, at: nat, es: seq<LogEntry>)
    requires at <= |log|
    ensures var n := Agreeing(log, at, es);
            && n <= |es| && (n < |es| ==> at + n <= |log|)
            && Reconcile(log, at, es) == if n == |es| then log else log[..at + n] + es[n..]
  {
    AgreeingBound(log, at, es);
    hide Agreeing;
  }

  /** The follower's loop, one entry more. */
  lemma ReconcileSnoc(log: seq<LogEntry>, at: nat, es: seq<LogEntry>, e: LogEntry)
    requires at <= |log|
    ensures Reconcile(log, at, es + [e]) == TakeOne(Reconcile(log, at, es), at + |es|, e)
  {
    hide Agreeing, Reconcile;
    AgreeingSnoc(log, at, es, e);
    ReconcileIs(log, at, es);
    ReconcileIs(log, at, es + [e]);
    var n := Agreeing(log, at, es);
    if n < |es| {
      assert (es + [e])[n..] == es[n..] + [e];
      Assoc(log[..at + n], es[n..], [e]);
    } else {
      assert (es + [e])[n..] == [e];
      assert at + n == |log| ==> log[..at + n] == log;
    }
  }

  lemma ReplaySnoc(db: map<Key, Value>, log: seq<LogEntry>, from: nat, to: nat)
    requires from <= to < |log|
    ensures Replay(db, log[from..to + 1]) == Apply(Replay(db, log[from..to]), log[to].command)
  {
    assert log[from..to + 1][..to - from] == log[from..to];
  }

  function ToAll(peers: seq<NodeId>, m: Message): set<Packet> { set p | p in peers :: Packet(p, m) }

  lemma ToAllSnoc(peers: seq<NodeId>, i: nat, m: Message)
    requires i < |peers|
    ensures ToAll(peers[..i + 1], m) == ToAll(peers[..i], m) + {Packet(peers[i], m)}
  {
    assert peers[..i + 1] == peers[..i] + [peers[i]];
  }

  function Requests(s: NodeState, peers: seq<NodeId>): set<Packet>
    requires forall p :: p in peers ==> p in s.nextIndex && 1 <= s.nextIndex[p] <= |s.log|
  {
    set p | p in peers :: Packet(p, MakeAppendEntries(s, p))
  }

  lemma RequestsSnoc(s: NodeState, peers: seq<NodeId>, i: nat)
    requires i < |peers| && forall p :: p in peers ==> p in s.nextIndex && 1 <= s.nextIndex[p] <= |s.log|
    ensures Requests(s, peers[..i + 1]) == Requests(s, peers[..i]) + {Packet(peers[i], MakeAppendEntries(s, peers[i]))}
  {
    hide MakeAppendEntries;
    assert peers[..i + 1] == peers[..i] + [peers[i]];
  }

  /** The answers to the requests filed under `keys` when leadership is lost. */
  function Failures(pending: map<(nat, nat), Responder>, keys: set<(nat, nat)>, term: nat): set<Packet> {
    set k | k in keys && k in pending :: Reply(pending[k], false, None, LeadershipChanged, term)
  }

  lemma FailuresAdd(pending: map<(nat, nat), Responder>, keys: set<(nat, nat)>, k: (nat, nat), term: nat)
    requires k in pending
    ensures Failures(pending, keys + {k}, term) ==
            Failures(pending, keys, term) + {Reply(pending[k], false, None, LeadershipChanged, term)}
  {
    hide Reply;
  }

  /** The answers to the requests waiting for entries `(from, to]`. */
  function Successes(pending: map<(nat, nat), Responder>, log: seq<LogEntry>, from: nat, to: nat): set<Packet>
    requires to < |log|
  {
    set i: nat | from < i <= to && (i, log[i].term) in pending ::
      Reply(pending[(i, log[i].term)], true, None, Applied(i), log[i].term)
  }

  /** The answer to the request filed under `k`, if one is waiting. */
  function Answer(pending: map<(nat, nat), Responder>, k: (nat, nat)): set<Packet> {
    if k in pending then {Reply(pending[k], true, None, Applied(k.0), k.1)} else {}
  }

  lemma AppliedPackets(s: NodeState)
    requires s.lastApplied < s.commitIndex < |s.log|
    ensures ApplyCommitted(s).sent == Successes(s.pending, s.log, s.lastApplied, s.commitIndex)
  {
    hide Reply, Replay;
  }

  lemma FollowFrame(s: NodeState, m: Message)
    requires m.AppendEntries? && m.term >= s.currentTerm
    ensures var x := Follow(s, m).state;
            x.log == s.log && x.commitIndex == s.commitIndex && x.id == s.id && x.currentTerm == m.term
            && x.role == Follower
  {}

  /** `m` with every one of `peers` set to `v`. */
  function Assign(m: map<NodeId, nat>, peers: seq<NodeId>, v: nat): map<NodeId, nat> {
    m + map p | p in peers :: v
  }

  lemma AssignNone(m: map<NodeId, nat>, v: nat)
    ensures Assign(m, [], v) == m
  {}

  lemma AssignSnoc(m: map<NodeId, nat>, peers: seq<NodeId>, i: nat, v: nat)
    requires i < |peers|
    ensures Assign(m, peers[..i + 1], v) == Assign(m, peers[..i], v)[peers[i] := v]
  {
    assert peers[..i + 1] == peers[..i] + [peers[i]];
  }

  /** What a new leader tells every peer. */
  function FirstRequest(s: NodeState): Message
    requires |s.log| >= 1
  {
    AppendEntries(s.currentTerm, s.id, |s.log| - 1, s.log[|s.log| - 1].term, [], s.commitIndex)
  }

  lemma SuccessesSnoc(pending: map<(nat, nat), Responder>, log: seq<LogEntry>, from: nat, to: nat)
    requires from <= to && to + 1 < |log|
    ensures var k := (to + 1, log[to + 1].term);
            && AppliedKeys(log, from, to + 1) == AppliedKeys(log, from, to) + {k}
            && k !in AppliedKeys(log, from, to)
            && Successes(pending, log, from, to + 1) == Successes(pending, log, from, to) + Answer(pending, k)
  {
    hide Reply;
  }

  class RaftNode {
    const id: NodeId
    const peers: seq<NodeId>
    var currentTerm: nat
    var votedFor: Option<NodeId>
    var log: seq<LogEntry>
    var commitIndex: nat
    var lastApplied: nat
    var nextIndex: map<NodeId, nat>
    var matchIndex: map<NodeId, nat>
    var role: Role
    var votesReceived: set<NodeId>
    var leaderId: Option<NodeId>
    var outbox: seq<Packet>
    var pendingRequests: map<(nat, nat), Responder>
    var db: map<Key, Value>

    function View(): NodeState
      reads this
    {
      NodeState(id, peers, currentTerm, votedFor, log, commitIndex, lastApplied, nextIndex, matchIndex, role,
                votesReceived, leaderId, pendingRequests, db)
    }

    ghost function Sent(): set<Packet>
      reads this`outbox
    {
      SeqSet(outbox)
    }

    constructor (id: NodeId, peers: seq<NodeId>)
      ensures View() == Fresh(id, peers) && outbox == []
    {
      this.id, this.peers := id, peers;
      currentTerm, votedFor, log := 0, None, [SENTINEL];
      commitIndex, lastApplied, nextIndex, matchIndex := 0, 0, map[], map[];
      role, votesReceived, leaderId, outbox, pendingRequests, db := Follower, {}, None, [], map[], map[];
    }

    method Push(p: Packet)
      modifies this`outbox
      ensures outbox == old(outbox) + [p] && Sent() == old(Sent()) + {p}
    {
      SeqSetPush(outbox, p);
      outbox := outbox + [p];
    }

    /** The caller takes what waits to be sent. */
    method TakeOutbox() returns (packets: seq<Packet>)
      modifies this`outbox
      ensures packets == old(outbox) && outbox == [] && View() == old(View())
      ensures SeqSet(packets) == old(Sent()) && Sent() == {}
    {
      packets := outbox;
      outbox := [];
    }

    method PushLogEntry(e: LogEntry)
      modifies this`log
      ensures log == old(log) + [e]
    {
      log := log + [e];
    }

    method TruncateLog(from: nat)
      modifies this`log
      ensures log == if from <= |old(log)| then old(log)[..from] else old(log)
    {
      if from <= |log| {
        log := log[..from];
      }
    }

    method MakeRequest(peer: NodeId) returns (m: Message)
      requires peer in nextIndex && 1 <= nextIndex[peer] <= |log|
      ensures m == MakeAppendEntries(View(), peer)
    {
      var next := nextIndex[peer];
      m := AppendEntries(currentTerm, id, next - 1, log[next - 1].term, log[next..], commitIndex);
    }

    // -------------------------------------------------------------- node.rs

    /** Every waiting client is told that the outcome is uncertain, in whatever order the map yields them. */
    method StepDownTo(newTerm: nat)
      modifies this
      ensures var x := StepDown(old(View()), newTerm);
              View() == x.state && Sent() == old(Sent()) + x.sent
    {
      currentTerm, role, votedFor, leaderId := newTerm, Follower, None, None;
      ghost var all := pendingRequests;
      DrainPending(newTerm);
      assert StepDown(old(View()), newTerm).sent == Failures(all, all.Keys, newTerm);
    }

    method DrainPending(term: nat)
      modifies this`outbox, this`pendingRequests
      ensures pendingRequests == map[]
      ensures Sent() == old(Sent()) + Failures(old(pendingRequests), old(pendingRequests).Keys, term)
    {
      hide Failures, Reply, SeqSet;
      ghost var all, done := pendingRequests, {};
      assert Failures(all, {}, term) == {} by { NoFailures(all, term); }
      while pendingRequests != map[]
        invariant pendingRequests == all - done && done <= all.Keys
        invariant Sent() == old(Sent()) + Failures(all, done, term)
        decreases pendingRequests.Keys
      {
        var k :| k in pendingRequests;
        FailuresAdd(all, done, k, term);
        Push(Reply(pendingRequests[k], false, None, LeadershipChanged, term));
        pendingRequests := pendingRequests - {k};
        done := done + {k};
      }
      assert done == all.Keys by {
        assert forall k :: k in all ==> k in done || k in pendingRequests;
      }
    }

    method RestartInPlace()
      modifies this
      ensures View() == Restart(old(View())) && outbox == []
    {
      ForgetPeers();
      role, leaderId, votesReceived, outbox := Follower, None, {}, [];
    }

    method ForgetPeers()
      modifies this`nextIndex, this`matchIndex, this`pendingRequests
      ensures nextIndex == map[] && matchIndex == map[] && pendingRequests == map[]
    {
      nextIndex, matchIndex, pendingRequests := map[], map[], map[];
    }

    method SendHeartbeats()
      requires Sane(View()) && role == Leader
      modifies this`outbox
      ensures Sent() == old(Sent()) + Heartbeats(View())
    {
      hide MakeAppendEntries, Requests, SeqSet;
      ghost var s := View();
      assert Requests(s, peers[..0]) == {} by { NoRequests(s); }
      for i := 0 to |peers|
        invariant Sent() == old(Sent()) + Requests(s, peers[..i])
      {
        RequestsSnoc(s, peers, i);
        var m := MakeRequest(peers[i]);
        Push(Packet(peers[i], m));
      }
      assert peers[..|peers|] == peers;
      assert Heartbeats(s) == Requests(s, peers) by { AllRequests(s); }
    }

    // -------------------------------------------------------------- election.rs

    method TakeLead()
      requires Sane(View())
      modifies this
      ensures var x := BecomeLeader(old(View()));
              View() == x.state && Sent() == old(Sent()) + x.sent
    {
      hide SeqSet, ToAll, Heartbeats, MakeAppendEntries, LeaderReady, Assign, BecomeLeaderState;
      FirstHeartbeats(View());
      LeaderMaps(View());
      role, leaderId := Leader, Some(id);
      StartPeers();
    }

    /** Every peer is tried from the end of the leader's log, and told of the new leader at once. */
    method StartPeers()
      requires |log| >= 1
      modifies this`nextIndex, this`matchIndex, this`outbox
      ensures nextIndex == Assign(old(nextIndex), peers, |log|) && matchIndex == Assign(old(matchIndex), peers, 0)
      ensures Sent() == old(Sent()) + ToAll(peers, FirstRequest(View()))
    {
      hide SeqSet, ToAll, Assign;
      ghost var request := FirstRequest(View());
      ToNone(request);
      AssignNone(nextIndex, |log|);
      AssignNone(matchIndex, 0);
      assert peers[..0] == [];
      for i := 0 to |peers|
        invariant nextIndex == Assign(old(nextIndex), peers[..i], |log|)
        invariant matchIndex == Assign(old(matchIndex), peers[..i], 0)
        invariant Sent() == old(Sent()) + ToAll(peers[..i], request)
      {
        AssignSnoc(old(nextIndex), peers, i, |log|);
        AssignSnoc(old(matchIndex), peers, i, 0);
        ToAllSnoc(peers, i, request);
        nextIndex := nextIndex[peers[i] := |log|];
        matchIndex := matchIndex[peers[i] := 0];
        var m := MakeRequest(peers[i]);
        assert m == request;
        Push(Packet(peers[i], m));
      }
      assert peers[..|peers|] == peers;
    }

    method RunForElection()
      requires Sane(View())
      modifies this
      ensures var x := StartElection(old(View()));
              View() == x.state && Sent() == old(Sent()) + x.sent
    {
      hide SeqSet, Heartbeats, ToAll, BecomeLeaderState;
      role, leaderId := Candidate, None;
      currentTerm := currentTerm + 1;
      votedFor := Some(id);
      votesReceived := {id};
      if |votesReceived| >= (|peers| + 1) / 2 + 1 {
        TakeLead();
        return;
      }
      AllVoteRequests(View());
      AskForVotes();
    }

    method AskForVotes()
      requires |log| >= 1
      modifies this`outbox
      ensures Sent() == old(Sent()) + ToAll(peers, VoteRequest(View()))
    {
      hide SeqSet, ToAll;
      var request := RequestVote(currentTerm, id, |log| - 1, log[|log| - 1].term);
      assert ToAll(peers[..0], request) == {} by { ToNone(request); }
      for i := 0 to |peers|
        invariant Sent() == old(Sent()) + ToAll(peers[..i], request)
      {
        ToAllSnoc(peers, i, request);
        Push(Packet(peers[i], request));
      }
      assert peers[..|peers|] == peers;
    }

    method OnVoteResponse(m: Message)
      requires Sane(View()) && m.RequestVoteResponse?
      modifies this
      ensures var x := HandleVoteResponse(old(View()), m);
              View() == x.state && Sent() == old(Sent()) + x.sent
    {
      if m.term > currentTerm {
        StepDownTo(m.term);
        return;
      }
      if m.term < currentTerm || role != Candidate {
        return;
      }
      if m.voteGranted {
        votesReceived := votesReceived + {m.voterId};
      }
      if |votesReceived| >= (|peers| + 1) / 2 + 1 {
        TakeLead();
      }
    }

    method OnRequestVote(m: Message) returns (r: Message)
      requires Sane(View()) && m.RequestVote?
      modifies this
      ensures var (x, r') := HandleRequestVote(old(View()), m);
              View() == x.state && Sent() == old(Sent()) + x.sent && r == r'
    {
      if m.term < currentTerm {
        return RequestVoteResponse(currentTerm, id, false);
      }
      if m.term > currentTerm {
        StepDownTo(m.term);
      }
      if votedFor.Some? && votedFor.value != m.candidateId {
        return RequestVoteResponse(currentTerm, id, false);
      }
      var lastIndex := |log| - 1;
      var lastTerm := log[lastIndex].term;
      if !(m.lastLogTerm > lastTerm || (m.lastLogTerm == lastTerm && m.lastLogIndex >= lastIndex)) {
        return RequestVoteResponse(currentTerm, id, false);
      }
      votedFor := Some(m.candidateId);
      r := RequestVoteResponse(currentTerm, id, true);
    }

    // -------------------------------------------------------------- replication.rs

    method ApplyEntries()
      requires commitIndex < |log|
      modifies this`lastApplied, this`db, this`pendingRequests, this`outbox
      ensures var x := ApplyCommitted(old(View()));
              View() == x.state && Sent() == old(Sent()) + x.sent
    {
      hide SeqSet, Replay, Successes, AppliedKeys, Reply;
      if lastApplied < commitIndex {
        AppliedPackets(View());
        ApplyUpTo();
      }
    }

    method ApplyUpTo()
      requires lastApplied < commitIndex < |log|
      modifies this`lastApplied, this`db, this`pendingRequests, this`outbox
      ensures lastApplied == commitIndex
      ensures db == Replay(old(db), log[old(lastApplied) + 1..commitIndex + 1])
      ensures pendingRequests == old(pendingRequests) - AppliedKeys(log, old(lastApplied), commitIndex)
      ensures Sent() == old(Sent()) + Successes(old(pendingRequests), log, old(lastApplied), commitIndex)
    {
      hide SeqSet, Reply, Replay, Successes, AppliedKeys;
      ghost var from, pending := lastApplied, pendingRequests;
      NothingApplied(db, pending, log, from);
      while lastApplied < commitIndex
        invariant from <= lastApplied <= commitIndex
        invariant db == Replay(old(db), log[from + 1..lastApplied + 1])
        invariant pendingRequests == pending - AppliedKeys(log, from, lastApplied)
        invariant Sent() == old(Sent()) + Successes(pending, log, from, lastApplied)
      {
        ReplaySnoc(old(db), log, from + 1, lastApplied + 1);
        SuccessesSnoc(pending, log, from, lastApplied);
        ApplyNext();
      }
    }

    /** One turn of the apply loop. */
    method ApplyNext()
      requires lastApplied + 1 < |log|
      modifies this`lastApplied, this`db, this`pendingRequests, this`outbox
      ensures lastApplied == old(lastApplied) + 1
      ensures db == Apply(old(db), log[lastApplied].command)
      ensures var key := (lastApplied, log[lastApplied].term);
              && pendingRequests == old(pendingRequests) - {key}
              && Sent() == old(Sent()) + Answer(old(pendingRequests), key)
              && outbox == old(outbox) + if key in old(pendingRequests)
                                         then [Reply(old(pendingRequests)[key], true, None, Applied(key.0), key.1)]
                                             else []
    {
      hide SeqSet, Reply;
      lastApplied := lastApplied + 1;
      match log[lastApplied].command {
        case Set(key, value) => db := db[key := value];
        case Delete(key) => db := db - {key};
      }
      var key := (lastApplied, log[lastApplied].term);
      if key in pendingRequests {
        var responder := pendingRequests[key];
        pendingRequests := pendingRequests - {key};
        Push(Reply(responder, true, None, Applied(key.0), key.1));
      }
    }

    method OnAppendEntries(m: Message) returns (r: Message)
      requires Sane(View()) && m.AppendEntries?
      modifies this
      ensures var (x, r') := HandleAppendEntries(old(View()), m);
              View() == x.state && Sent() == old(Sent()) + x.sent && r == r'
    {
      hide SeqSet, ApplyCommitted, Reconcile, StepDown;
      if m.term < currentTerm {
        return AppendEntriesResponse(currentTerm, id, false, |log| - 1);
      }
      FollowFrame(View(), m);
      FollowLeader(m);
      if m.prevLogIndex >= |log| || log[m.prevLogIndex].term != m.prevLogTerm {
        return AppendEntriesResponse(currentTerm, id, false, |log| - 1);
      }
      Accept(m);
      r := AppendEntriesResponse(currentTerm, id, true, m.prevLogIndex + |m.entries|);
    }

    method FollowLeader(m: Message)
      requires m.AppendEntries? && m.term >= currentTerm
      modifies this
      ensures var x := Follow(old(View()), m);
              View() == x.state && Sent() == old(Sent()) + x.sent
    {
      hide SeqSet;
      if m.term > currentTerm {
        StepDownTo(m.term);
      }
      role, leaderId := Follower, Some(m.leaderId);
    }

    /** The entries follow on from an entry this node holds: take them in, and apply what became committed. */
    method Accept(m: Message)
      requires Sane(View()) && m.AppendEntries? && m.prevLogIndex < |log|
      modifies this`log, this`commitIndex, this`lastApplied, this`db, this`pendingRequests, this`outbox
      ensures var x := ApplyCommitted(TakeEntries(old(View()), m));
              View() == x.state && Sent() == old(Sent()) + x.sent
    {
      hide SeqSet, ApplyCommitted, Reconcile, LeaderReady;
      TakeAll(m.prevLogIndex + 1, m.entries);
      commitIndex := Min(m.leaderCommit, |log| - 1);
      ApplyEntries();
    }

    /** The follower's append loop: skip what is there, cut at the first conflict, append the rest. */
    method TakeAll(at: nat, entries: seq<LogEntry>)
      requires at <= |log|
      modifies this`log
      ensures log == Reconcile(old(log), at, entries)
    {
      hide Reconcile;
      assert entries[..0] == [];
      NothingTaken(log, at);
      var index := at;
      for j := 0 to |entries|
        invariant index == at + j
        invariant log == Reconcile(old(log), at, entries[..j])
      {
        ReconcileSnoc(old(log), at, entries[..j], entries[j]);
        assert entries[..j + 1] == entries[..j] + [entries[j]];
        if index < |log| {
          if log[index].term != entries[j].term {
            TruncateLog(index);
            PushLogEntry(entries[j]);
          }
        } else {
          PushLogEntry(entries[j]);
        }
        index := index + 1;
      }
      assert entries[..|entries|] == entries;
    }

    method AdvanceCommit()
      requires Sane(View())
      modifies this`commitIndex, this`lastApplied, this`db, this`pendingRequests, this`outbox
      ensures var x := UpdateCommitIndex(old(View()));
              View() == x.state && Sent() == old(Sent()) + x.sent
    {
      ghost var s := View();
      var majority := (|peers| + 1) / 2 + 1;
      for index := commitIndex + 1 to |log|
        invariant View() == s.(commitIndex := commitIndex) && outbox == old(outbox)
        invariant commitIndex == ScanCommit(s, index - 1)
      {
        if log[index].term == currentTerm {
          var replicated := |set p | p in matchIndex && matchIndex[p] >= index| + 1;
          assert replicated == |Replicas(s, index)| + 1;
          if replicated >= majority {
            commitIndex := index;
          }
        }
      }
      ScanCommitBound(s, |log| - 1);
      ApplyEntries();
    }

    method OnAppendEntriesResponse(m: Message)
      requires Sane(View()) && m.AppendEntriesResponse? && ResponseInRange(View(), m)
      modifies this
      ensures var x := HandleAppendEntriesResponse(old(View()), m);
              View() == x.state && Sent() == old(Sent()) + x.sent
    {
      if m.term > currentTerm {
        StepDownTo(m.term);
        return;
      }
      if role != Leader || m.term < currentTerm {
        return;
      }
      if m.success {
        matchIndex := matchIndex[m.followerId := m.matchIndex];
        nextIndex := nextIndex[m.followerId := m.matchIndex + 1];
        AdvanceCommit();
        return;
      }
      var next := nextIndex[m.followerId];
      nextIndex := nextIndex[m.followerId := if next > 1 then next - 1 else next];
      var retry := MakeRequest(m.followerId);
      Push(Packet(m.followerId, retry));
    }

    method Append(c: Command) returns (index: nat)
      requires Sane(View()) && role == Leader
      modifies this
      ensures var x := AppendCommand(old(View()), c);
              View() == x.state && Sent() == old(Sent()) + x.sent && index == |old(log)|
    {
      index := |log|;
      PushLogEntry(LogEntry(currentTerm, c));
      if |peers| == 0 {
        AdvanceCommit();
      } else {
        SendHeartbeats();
      }
    }

    method SubmitStoreWrite(c: Command, r: Responder)
      requires Sane(View())
      modifies this
      ensures var x := SubmitWrite(old(View()), c, r);
              View() == x.state && Sent() == old(Sent()) + x.sent
    {
      if role != Leader {
        Push(Reply(r, false, None, NotLeader(leaderId), currentTerm));
        return;
      }
      ghost var before := View();
      var index := Append(c);
      AppendKeepsTerm(before, c);
      var term := log[index].term;
      if lastApplied >= index {
        Push(Reply(r, true, None, Applied(index), term));
      } else {
        pendingRequests := pendingRequests[(index, term) := r];
      }
    }

    // -------------------------------------------------------------- message.rs

    method OnMessage(m: Message)
      requires CanHandle(View(), m)
      modifies this
      ensures var x := HandleMessage(old(View()), m);
              View() == x.state && Sent() == old(Sent()) + x.sent
    {
      match m {
        case RequestVote(_, candidate, _, _) =>
          var r := OnRequestVote(m);
          Push(Packet(candidate, r));
        case RequestVoteResponse(_, _, _) =>
          OnVoteResponse(m);
        case AppendEntries(_, leader, _, _, _, _) =>
          var r := OnAppendEntries(m);
          Push(Packet(leader, r));
        case AppendEntriesResponse(_, _, _, _) =>
          OnAppendEntriesResponse(m);
        case ClientCommand(c) =>
          if role == Leader {
            var _ := Append(c);
          } else if leaderId.Some? {
            Push(Packet(leaderId.value, m));
          }
        case ClientRequest(q, client, c) =>
          SubmitStoreWrite(c, RaftClient(client, q));
        case ClientQuery(q, client, k) =>
          Push(Reply(RaftClient(client, q), true, if k in db then Some(db[k]) else None, ReadFrom(id), currentTerm));
        case StatusQuery(q, client) =>
          Push(Reply(RaftClient(client, q), true, None, StatusOk(role), currentTerm));
        case ClientResponse(_, _, _, _, _) =>
        case Timeout =>
          RunForElection();
      }
    }
  }

  lemma AppendKeepsTerm(s: NodeState, c: Command)
    requires Sane(s) && s.role == Leader
    ensures AppendCommand(s, c).state.log == s.log + [LogEntry(s.currentTerm, c)]
  {
    hide Replay, ScanCommit, Heartbeats;
  }

  lemma NoFailures(pending: map<(nat, nat), Responder>, term: nat)
    ensures Failures(pending, {}, term) == {}
  {}

  lemma NoRequests(s: NodeState)
    ensures Requests(s, s.peers[..0]) == {}
  {}

  lemma AllRequests(s: NodeState)
    requires Sane(s) && s.role == Leader
    ensures Heartbeats(s) == Requests(s, s.peers)
  {
    hide MakeAppendEntries;
  }

  lemma ToNone(m: Message)
    ensures ToAll([], m) == {}
  {}

  /** A fresh leader starts every peer at the end of its own log. */
  lemma FirstHeartbeats(s: NodeState)
    requires Sane(s)
    ensures BecomeLeader(s).sent == ToAll(s.peers, FirstRequest(s))
  {
    var s' := BecomeLeaderState(s);
    forall p | p in s.peers ensures MakeAppendEntries(s', p) == FirstRequest(s) {
      FirstHeartbeat(s, s', p);
    }
    hide MakeAppendEntries, FirstRequest;
  }

  lemma FirstHeartbeat(s: NodeState, s': NodeState, p: NodeId)
    requires Sane(s) && s' == BecomeLeaderState(s) && p in s.peers
    ensures p in s'.nextIndex && 1 <= s'.nextIndex[p] <= |s'.log| && MakeAppendEntries(s', p) == FirstRequest(s)
  {}

  lemma LeaderMaps(s: NodeState)
    ensures BecomeLeaderState(s) ==
            s.(role := Leader, leaderId := Some(s.id), nextIndex := Assign(s.nextIndex, s.peers, |s.log|),
               matchIndex := Assign(s.matchIndex, s.peers, 0))
  {
    var s' := BecomeLeaderState(s);
    assert s'.nextIndex == Assign(s.nextIndex, s.peers, |s.log|);
    assert s'.matchIndex == Assign(s.matchIndex, s.peers, 0);
  }

  lemma AllVoteRequests(s: NodeState)
    requires |s.log| >= 1
    ensures (set p | p in s.peers :: Packet(p, VoteRequest(s))) == ToAll(s.peers, VoteRequest(s))
  {}

  lemma NothingApplied(db: map<Key, Value>, pending: map<(nat, nat), Responder>, log: seq<LogEntry>, from: nat)
    requires from < |log|
    ensures Replay(db, log[from + 1..from + 1]) == db
    ensures AppliedKeys(log, from, from) == {} && pending - {} == pending
    ensures Successes(pending, log, from, from) == {}
  {}

  lemma NothingTaken(log: seq<LogEntry>, at: nat)
    requires at <= |log|
    ensures Reconcile(log, at, []) == log
  {}
}
