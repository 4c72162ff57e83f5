/** What clients are told: reads return the last write applied, and no waiting client is forgotten. */
module RaftAnswers {
  import opened Commands
  import opened RaftTypes
  import opened RaftHandlers
  import opened RaftCluster
  import opened RaftInvariants
  import opened RaftPreservation
  import opened RaftSafety
  import opened RaftTheorems
  import opened RaftClients
  import opened RaftDuties

  // ---------------------------------------------------------------- reads

  /** Entry j is the last one up to index `upTo` that writes key k. */
  predicate LastWrite(log: seq<LogEntry>, upTo: nat, k: Key, j: nat)
    requires upTo < |log|
  {
    1 <= j <= upTo && log[j].command.key == k && forall l :: j < l <= upTo ==> log[l].command.key != k
  }

  /** The last write of key k up to index `upTo` sets it to v. */
  predicate LastSets(log: seq<LogEntry>, upTo: nat, k: Key, v: Value)
    requires upTo < |log|
  {
    exists j: nat :: j <= upTo && LastWrite(log, upTo, k, j) && log[j].command == Set(k, v)
  }

  lemma LastWriteNext(log: seq<LogEntry>, upTo: nat, k: Key, v: Value)
    requires 1 <= upTo < |log|
    ensures LastSets(log, upTo, k, v) <==>
            if log[upTo].command.key == k then log[upTo].command == Set(k, v) else LastSets(log, upTo - 1, k, v)
  {
    if log[upTo].command.key == k {
      assert LastWrite(log, upTo, k, upTo);
    } else {
      assert forall j: nat :: j <= upTo - 1 ==> LastWrite(log, upTo, k, j) == LastWrite(log, upTo - 1, k, j);
      assert !LastWrite(log, upTo, k, upTo);
    }
  }

  /** A database built by executing entries in order holds, under each key, what the last write of the key left. */
  lemma {:induction false} ReplayHoldsLast(log: seq<LogEntry>, upTo: nat, k: Key, v: Value)
    requires upTo < |log|
    ensures Get(Replay(map[], log[1..upTo + 1]), k) == Some(v) <==> LastSets(log, upTo, k, v)
  {
    if upTo > 0 {
      assert log[1..upTo + 1][..upTo - 1] == log[1..upTo];
      ReplayHoldsLast(log, upTo - 1, k, v);
      LastWriteNext(log, upTo, k, v);
    }
  }

  /**
    A query changes nothing and is answered once, to the client that asked, with the value that the last applied
    entry writing the key set, or with none if that entry deleted the key or there is no such entry.
  */
  lemma QueryReadsLastWrite(cs: seq<Cluster>, i: nat, e: Event, s: NodeState, s': NodeState, sent: set<Packet>)
    returns (result: Option<Value>)
    requires StepAt(cs, i, e, s, s', sent) && e.Deliver? && e.p.msg.ClientQuery?
    ensures s' == s && s.lastApplied < |s.log|
    ensures sent == {Packet(e.p.msg.clientId,
                            ClientResponse(e.p.msg.requestId, true, result, ReadFrom(e.p.dst), s.currentTerm))}
    ensures forall v :: result == Some(v) <==> LastSets(s.log, s.lastApplied, e.p.msg.key, v)
  {
    hide Run, StepAt, LastSets, Replay;
    StepIs(cs, i, e, s, s', sent);
    Membership(cs, i, e.p.dst);
    DbIsReplay(cs, i, e.p.dst);
    result := Get(s.db, e.p.msg.key);
    forall v ensures result == Some(v) <==> LastSets(s.log, s.lastApplied, e.p.msg.key, v) {
      ReplayHoldsLast(s.log, s.lastApplied, e.p.msg.key, v);
    }
  }

  lemma StatusIsTold(cs: seq<Cluster>, i: nat, e: Event, s: NodeState, s': NodeState, sent: set<Packet>)
    requires StepAt(cs, i, e, s, s', sent) && e.Deliver? && e.p.msg.StatusQuery?
    ensures s' == s
    ensures sent == {Packet(e.p.msg.clientId,
                            ClientResponse(e.p.msg.requestId, true, None, StatusOk(s.role), s.currentTerm))}
  {
    hide Run, StepAt;
    StepIs(cs, i, e, s, s', sent);
  }

  // ---------------------------------------------------------------- writes

  /**
    A write that reaches a node that does not lead changes nothing: it is refused, or passed to the leader it knows.
  */
  lemma WriteElsewhere(cs: seq<Cluster>, i: nat, e: Event, s: NodeState, s': NodeState, sent: set<Packet>)
    requires StepAt(cs, i, e, s, s', sent) && e.Deliver? && IsWrite(e.p.msg) && s.role != Leader
    ensures s' == s
    ensures e.p.msg.ClientRequest? ==>
              sent == {Packet(e.p.msg.clientId,
                              ClientResponse(e.p.msg.requestId, false, None, NotLeader(s.leaderId), s.currentTerm))}
    ensures e.p.msg.ClientCommand? ==> sent == if s.leaderId.Some? then {Packet(s.leaderId.value, e.p.msg)} else {}
  {
    hide Run, StepAt;
    StepIs(cs, i, e, s, s', sent);
  }

  /** A client's write that reaches a leader is answered at once if it is already applied, and otherwise filed. */
  lemma WriteIsFiled(cs: seq<Cluster>, i: nat, e: Event, s: NodeState, s': NodeState, sent: set<Packet>)
    requires StepAt(cs, i, e, s, s', sent) && e.Deliver? && e.p.msg.ClientRequest? && s.role == Leader
    ensures var m, k := e.p.msg, (|s.log|, s.currentTerm);
            && s'.log == s.log + [LogEntry(s.currentTerm, m.command)]
            && if s'.lastApplied >= |s.log|
               then Packet(m.clientId, ClientResponse(m.requestId, true, None, Applied(|s.log|), s.currentTerm)) in sent
               else k in s'.pending && s'.pending[k] == RaftClient(m.clientId, m.requestId)
  {
    hide Run, StepAt, AppendCommand;
    StepIs(cs, i, e, s, s', sent);
    AppendFacts(s, e.p.msg.command);
  }

  // ---------------------------------------------------------------- nobody is forgotten

  /** The client r, who waited under k, waits on, or is told that the entry is applied or that leadership is lost. */
  predicate Attended(s': NodeState, sent: set<Packet>, k: (nat, nat), r: Responder) {
    || (k in s'.pending && s'.pending[k] == r)
    || (k.0 <= s'.lastApplied &&
        Packet(r.clientId, ClientResponse(r.requestId, true, None, Applied(k.0), k.1)) in sent)
    || Packet(r.clientId, ClientResponse(r.requestId, false, None, LeadershipChanged, s'.currentTerm)) in sent
  }

  lemma ApplyAttends(s: NodeState, k: (nat, nat))
    requires s.commitIndex < |s.log| && k in s.pending
    ensures var x := ApplyCommitted(s); Attended(x.state, x.sent, k, s.pending[k])
  {
    hide Replay;
    if s.lastApplied < s.commitIndex && k in AppliedKeys(s.log, s.lastApplied, s.commitIndex) {
      assert Reply(s.pending[k], true, None, Applied(k.0), k.1) in ApplyCommitted(s).sent;
    }
  }

  lemma CommitAttends(s: NodeState, k: (nat, nat))
    requires Sane(s) && k in s.pending
    ensures var x := UpdateCommitIndex(s); Attended(x.state, x.sent, k, s.pending[k])
  {
    hide ScanCommit, ApplyCommitted, Attended;
    ScanCommitBound(s, |s.log| - 1);
    ApplyAttends(s.(commitIndex := ScanCommit(s, |s.log| - 1)), k);
  }

  lemma AppendAttends(s: NodeState, c: Command, k: (nat, nat))
    requires Sane(s) && s.role == Leader && k in s.pending
    ensures var x := AppendCommand(s, c); Attended(x.state, x.sent, k, s.pending[k])
  {
    hide UpdateCommitIndex, Heartbeats;
    if |s.peers| == 0 {
      CommitAttends(AppendEntry(s, c), k);
    }
  }

  lemma FollowAttends(s: NodeState, m: Message, k: (nat, nat))
    requires Sane(s) && m.AppendEntries? && k in s.pending
    ensures var x := HandleAppendEntries(s, m).0; Attended(x.state, x.sent, k, s.pending[k])
  {
    hide Replay, Reconcile, ApplyCommitted, StepDown, Accepts;
    if m.term > s.currentTerm {
      FollowerAdopts(s, m);
      EveryoneTold(s, m.term, k);
    } else if m.term == s.currentTerm && Accepts(s, m) {
      AcceptAttends(s, m, k);
    } else {
      RefuseAttends(s, m);
    }
  }

  lemma RefuseAttends(s: NodeState, m: Message)
    requires Sane(s) && m.AppendEntries? && m.term <= s.currentTerm && (m.term == s.currentTerm ==> !Accepts(s, m))
    ensures HandleAppendEntries(s, m).0.state.pending == s.pending
  {}

  lemma AcceptAttends(s: NodeState, m: Message, k: (nat, nat))
    requires Sane(s) && m.AppendEntries? && m.term == s.currentTerm && Accepts(s, m) && k in s.pending
    ensures var x := HandleAppendEntries(s, m).0; Attended(x.state, x.sent, k, s.pending[k])
  {
    hide Reconcile, ApplyCommitted;
    ApplyAttends(TakeEntries(Follow(s, m).state, m), k);
  }

  lemma ResponseAttends(s: NodeState, m: Message, k: (nat, nat))
    requires CanHandle(s, m) && m.AppendEntriesResponse? && k in s.pending
    ensures var x := HandleMessage(s, m); Attended(x.state, x.sent, k, s.pending[k])
  {
    hide UpdateCommitIndex, StepDown, MakeAppendEntries;
    if m.term > s.currentTerm {
      OthersAdopt(s, m);
      EveryoneTold(s, m.term, k);
    } else if s.role == Leader && m.term == s.currentTerm && m.success {
      CommitAttends(s.(matchIndex := s.matchIndex[m.followerId := m.matchIndex],
                       nextIndex := s.nextIndex[m.followerId := m.matchIndex + 1]), k);
    }
  }

  lemma ElectionAttends(s: NodeState, k: (nat, nat))
    requires Sane(s) && k in s.pending
    ensures var x := StartElection(s); Attended(x.state, x.sent, k, s.pending[k])
  {
    hide Majority, Heartbeats;
  }

  lemma VotingAttends(s: NodeState, m: Message, k: (nat, nat))
    requires CanHandle(s, m) && (m.RequestVote? || m.RequestVoteResponse?) && k in s.pending
    ensures var x := HandleMessage(s, m); Attended(x.state, x.sent, k, s.pending[k])
  {
    hide Majority, Heartbeats, StepDown, UpToDate;
    if m.term > s.currentTerm {
      OthersAdopt(s, m);
      EveryoneTold(s, m.term, k);
    }
  }

  lemma WriteAttends(s: NodeState, m: Message, k: (nat, nat))
    requires Sane(s) && IsWrite(m) && k in s.pending && (s.role == Leader ==> k != (|s.log|, s.currentTerm))
    ensures var x := HandleMessage(s, m); Attended(x.state, x.sent, k, s.pending[k])
  {
    hide AppendCommand;
    if s.role == Leader {
      AppendAttends(s, m.command, k);
    }
  }

  lemma DeliveryAttends(s: NodeState, m: Message, k: (nat, nat))
    requires CanHandle(s, m) && k in s.pending && (s.role == Leader ==> k != (|s.log|, s.currentTerm))
    ensures var x := HandleMessage(s, m); Attended(x.state, x.sent, k, s.pending[k])
  {
    hide HandleAppendEntries, HandleAppendEntriesResponse, HandleRequestVote, HandleVoteResponse, AppendCommand,
      SubmitWrite, StartElection;
    if m.AppendEntries? {
      FollowAttends(s, m, k);
    } else if m.AppendEntriesResponse? {
      ResponseAttends(s, m, k);
    } else if m.RequestVote? || m.RequestVoteResponse? {
      VotingAttends(s, m, k);
    } else if IsWrite(m) {
      WriteAttends(s, m, k);
    } else if m.Timeout? {
      ElectionAttends(s, k);
    }
  }

  /** Nobody is forgotten: in every step but a restart, each waiting client waits on or is told the outcome. */
  lemma NobodyForgotten(cs: seq<Cluster>, i: nat, e: Event, s: NodeState, s': NodeState, sent: set<Packet>,
                        k: (nat, nat))
    requires StepAt(cs, i, e, s, s', sent) && !e.Reboot? && k in s.pending
    ensures Attended(s', sent, k, s.pending[k])
  {
    hide Run, StepAt, Inv, HandleMessage, StartElection, Heartbeats;
    StepIs(cs, i, e, s, s', sent);
    Reachable(cs, i);
    FileFresh(cs[i], Target(e));
    if e.Deliver? {
      DeliveryAttends(s, e.p.msg, k);
    } else if e.Elect? {
      ElectionAttends(s, k);
    }
  }

  // ---------------------------------------------------------------- nobody waits for what is done

  /** The entry that the request filed under k waits for has been applied. */
  predicate Done(s: NodeState, k: (nat, nat)) {
    k.0 <= s.lastApplied && k.0 < |s.log| && s.log[k.0].term == k.1
  }

  /** After the step, k is an old request whose entry was not applied in it, or a new one behind all that is applied. */
  predicate StillOpen(s: NodeState, s': NodeState, k: (nat, nat)) {
    && (k in s.pending || k.0 > s'.lastApplied)
    && (Done(s', k) ==> k.0 <= s.lastApplied)
  }

  lemma ApplyOpens(s: NodeState, k: (nat, nat))
    requires s.commitIndex < |s.log| && k in ApplyCommitted(s).state.pending
    ensures StillOpen(s, ApplyCommitted(s).state, k)
  {
    hide Replay, Reply;
  }

  lemma CommitOpens(s: NodeState, k: (nat, nat))
    requires Sane(s) && k in UpdateCommitIndex(s).state.pending
    ensures StillOpen(s, UpdateCommitIndex(s).state, k)
  {
    hide ScanCommit, ApplyCommitted;
    ScanCommitBound(s, |s.log| - 1);
    ApplyOpens(s.(commitIndex := ScanCommit(s, |s.log| - 1)), k);
  }

  lemma WriteOpens(s: NodeState, m: Message, k: (nat, nat))
    requires Sane(s) && IsWrite(m) && s.role == Leader && k in HandleMessage(s, m).state.pending
    ensures StillOpen(s, HandleMessage(s, m).state, k)
  {
    hide UpdateCommitIndex, Heartbeats;
    var s1 := AppendEntry(s, m.command);
    if |s.peers| == 0 && k in UpdateCommitIndex(s1).state.pending {
      CommitOpens(s1, k);
    }
  }

  lemma FollowOpens(s: NodeState, m: Message, k: (nat, nat))
    requires Sane(s) && m.AppendEntries? && k in HandleAppendEntries(s, m).0.state.pending
    ensures StillOpen(s, HandleAppendEntries(s, m).0.state, k)
  {
    hide Reconcile, ApplyCommitted, StepDown;
    if m.term > s.currentTerm {
      FollowerAdopts(s, m);
    } else if m.term == s.currentTerm && Accepts(s, m) {
      ApplyOpens(TakeEntries(Follow(s, m).state, m), k);
    }
  }

  lemma ResponseOpens(s: NodeState, m: Message, k: (nat, nat))
    requires CanHandle(s, m) && m.AppendEntriesResponse? && k in HandleMessage(s, m).state.pending
    ensures StillOpen(s, HandleMessage(s, m).state, k)
  {
    hide UpdateCommitIndex, MakeAppendEntries;
    if s.role == Leader && m.term == s.currentTerm && m.success {
      CommitOpens(s.(matchIndex := s.matchIndex[m.followerId := m.matchIndex],
                     nextIndex := s.nextIndex[m.followerId := m.matchIndex + 1]), k);
    }
  }

  lemma OthersOpen(s: NodeState, e: Event, k: (nat, nat))
    requires NoPanic(s, e) && k in Transition(s, e).state.pending
    requires e.Deliver? ==> !e.p.msg.AppendEntries? && !e.p.msg.AppendEntriesResponse? && !IsWrite(e.p.msg)
    ensures StillOpen(s, Transition(s, e).state, k)
  {
    hide Majority, Heartbeats, UpToDate;
  }

  lemma StepOpens(s: NodeState, e: Event, k: (nat, nat))
    requires NoPanic(s, e) && k in Transition(s, e).state.pending
    ensures StillOpen(s, Transition(s, e).state, k)
  {
    hide HandleMessage, HandleAppendEntries, StillOpen, StartElection;
    if !e.Deliver? {
      OthersOpen(s, e, k);
    } else {
      var m := e.p.msg;
      if m.AppendEntries? {
        DeliveredAppend(s, m);
        FollowOpens(s, m, k);
      } else if m.AppendEntriesResponse? {
        ResponseOpens(s, m, k);
      } else if IsWrite(m) && s.role == Leader {
        WriteOpens(s, m, k);
      } else if IsWrite(m) {
        ElsewhereOpens(s, m, k);
      } else {
        OthersOpen(s, e, k);
      }
    }
  }

  lemma ElsewhereOpens(s: NodeState, m: Message, k: (nat, nat))
    requires Sane(s) && IsWrite(m) && s.role != Leader && k in HandleMessage(s, m).state.pending
    ensures StillOpen(s, HandleMessage(s, m).state, k)
  {}

  lemma OpenIsNotDone(s: NodeState, s': NodeState, k: (nat, nat))
    requires StillOpen(s, s', k) && (k in s.pending ==> !Done(s, k))
    requires s.lastApplied < |s.log| && s.lastApplied < |s'.log|
    requires s'.log[..s.lastApplied + 1] == s.log[..s.lastApplied + 1]
    ensures !Done(s', k)
  {
    assert k.0 <= s.lastApplied ==>
      s'.log[k.0] == s'.log[..s.lastApplied + 1][k.0] && s.log[k.0] == s.log[..s.lastApplied + 1][k.0];
  }

  lemma WaitsOn(cs: seq<Cluster>, i: nat, e: Event, n: NodeId, k: (nat, nat))
    requires Run(cs) && i + 1 < |cs| && StepBy(cs[i], e, cs[i + 1]) && n in cs[i].nodes && n in cs[i + 1].nodes
    requires k in cs[i + 1].nodes[n].pending && (k in cs[i].nodes[n].pending ==> !Done(cs[i].nodes[n], k))
    ensures !Done(cs[i + 1].nodes[n], k)
  {
    hide Run, Transition, StillOpen, Record, NoPanic, Done, Replay;
    if !e.Submit? && n == Target(e) {
      StepOpens(cs[i].nodes[n], e, k);
      AppliedForever(cs, i, i + 1, n);
      OpenIsNotDone(cs[i].nodes[n], cs[i + 1].nodes[n], k);
    }
  }

  /** In every state of every run a client that waits does so for an entry that its node has not applied. */
  lemma {:induction false} NobodyWaitsForDone(cs: seq<Cluster>, i: nat, n: NodeId, k: (nat, nat))
    requires Run(cs) && i < |cs| && n in cs[i].nodes && k in cs[i].nodes[n].pending
    ensures !Done(cs[i].nodes[n], k)
    decreases i
  {
    hide StepBy, Inv, Done;
    if i > 0 {
      Reachable(cs, i - 1);
      Reachable(cs, i);
      assert Step(cs[i - 1], cs[i - 1 + 1]);
      var e :| StepBy(cs[i - 1], e, cs[i]);
      if k in cs[i - 1].nodes[n].pending {
        NobodyWaitsForDone(cs, i - 1, n, k);
      }
      WaitsOn(cs, i - 1, e, n, k);
    }
  }
}
