/**
  What a node must do at each step of a run. The safety theorems bound what nodes may do; these laws say that
  they do not do less: a majority elects and commits, every member is asked and told, every waiting client is
  answered, and a read returns the last write applied.
*/
module RaftDuties {
  import opened Commands
  import opened RaftTypes
  import opened RaftHandlers
  import opened RaftCluster
  import opened RaftInvariants
  import opened RaftFrames
  import opened RaftSteps
  import opened RaftFollower
  import opened RaftPreservation
  import opened RaftSafety
  import opened RaftTheorems

  /** Step `i` of the run is `e`: it takes its node from `s` to `s'`, and the node sends `sent`. */
  ghost predicate StepAt(cs: seq<Cluster>, i: nat, e: Event, s: NodeState, s': NodeState, sent: set<Packet>) {
    && Run(cs) && i + 1 < |cs| && !e.Submit? && StepBy(cs[i], e, cs[i + 1])
    && s == cs[i].nodes[Target(e)]
    && Target(e) in cs[i + 1].nodes && s' == cs[i + 1].nodes[Target(e)]
    && sent == Transition(s, e).sent
  }

  lemma StepIs(cs: seq<Cluster>, i: nat, e: Event, s: NodeState, s': NodeState, sent: set<Packet>)
    requires StepAt(cs, i, e, s, s', sent)
    ensures NoPanic(s, e) && Transition(s, e) == Effect(s', sent)
    ensures Enabled(cs[i], e) && Target(e) in cs[i].nodes && s == cs[i].nodes[Target(e)]
    ensures Run(cs) && i + 1 < |cs| && Sane(s)
    ensures cs[i + 1].net == cs[i].net + sent
  {
    hide Run, Transition, Record, CanHandle, LeaderReady;
  }

  /** What a node knows of the cluster: its own name and the names of all others. */
  lemma Membership(cs: seq<Cluster>, i: nat, n: NodeId)
    requires Run(cs) && i < |cs| && n in cs[i].nodes
    ensures var s, ids := cs[i].nodes[n], cs[i].ids;
            && n in ids && s.id == n && SeqSet(s.peers) == ids - {n} && |s.peers| >= |ids| - 1 && |s.log| >= 1
            && s.matchIndex.Keys <= ids - {n}
  {
    hide Inv, Run, KeepsAcked, CommitOk, VotesOk, CandidateOk, LeaderOk, PendingOk;
    Reachable(cs, i);
    NodeHolds(cs[i], n);
  }

  lemma NoPeers(peers: seq<NodeId>)
    ensures peers == [] <==> SeqSet(peers) == {}
  {
    assert |peers| > 0 ==> peers[0] in SeqSet(peers);
  }

  // ---------------------------------------------------------------- elections

  predicate Stands(e: Event) { e.Elect? || (e.Deliver? && e.p.msg.Timeout?) }

  /** An election asks every other member for its vote, naming the end of the log; a node alone leads at once. */
  lemma ElectionAsksAll(cs: seq<Cluster>, i: nat, e: Event, s: NodeState, s': NodeState, sent: set<Packet>)
    requires StepAt(cs, i, e, s, s', sent) && Stands(e)
    ensures var n, ids := Target(e), cs[i].ids;
            && |s.log| >= 1 && s'.currentTerm == s.currentTerm + 1 && s'.votedFor == Some(n) && s'.log == s.log
            && s'.votesReceived == {n} && s'.leaderId == (if ids == {n} then Some(n) else None)
            && s'.role == (if ids == {n} then Leader else Candidate)
            && (ids != {n} ==>
                  sent == set q | q in ids - {n} ::
                    Packet(q, RequestVote(s.currentTerm + 1, n, |s.log| - 1, s.log[|s.log| - 1].term)))
  {
    hide Run, StepAt;
    StepIs(cs, i, e, s, s', sent);
    Membership(cs, i, Target(e));
    assert s.peers == [] <==> cs[i].ids == {Target(e)} by {
      NoPeers(s.peers);
      assert cs[i].ids == {Target(e)} <==> SeqSet(s.peers) == {};
    }
    assert forall q :: q in s.peers <==> q in cs[i].ids - {Target(e)} by {
      assert forall q :: q in s.peers <==> q in SeqSet(s.peers);
    }
  }

  /** A new leader tells every other member so, starting each from the end of its own log. */
  predicate Announces(ids: set<NodeId>, n: NodeId, s: NodeState, s': NodeState, sent: set<Packet>) {
    && |s.log| >= 1 && s'.log == s.log && s'.leaderId == Some(n)
    && (forall q :: q in ids - {n} ==>
          && q in s'.nextIndex && s'.nextIndex[q] == |s.log| && q in s'.matchIndex && s'.matchIndex[q] == 0)
    && sent == set q | q in ids - {n} ::
         Packet(q, AppendEntries(s.currentTerm, n, |s.log| - 1, s.log[|s.log| - 1].term, [], s.commitIndex))
  }

  lemma LeaderAnnounces(ids: set<NodeId>, n: NodeId, s: NodeState)
    requires Sane(s) && s.id == n && SeqSet(s.peers) == ids - {n}
    ensures var x := BecomeLeader(s);
            Announces(ids, n, s, x.state, x.sent) && x.state.currentTerm == s.currentTerm && x.state.role == Leader
  {
    hide MakeAppendEntries, LeaderReady;
    var s' := BecomeLeaderState(s);
    forall q ensures q in s.peers <==> q in ids - {n} {
      assert q in s.peers <==> q in SeqSet(s.peers);
    }
    forall q | q in s.peers
      ensures q in s'.nextIndex && 1 <= s'.nextIndex[q] <= |s'.log|
      ensures MakeAppendEntries(s', q) ==
              AppendEntries(s.currentTerm, n, |s.log| - 1, s.log[|s.log| - 1].term, [], s.commitIndex)
    {
      FirstRequestIs(s, q);
    }
  }

  lemma FirstRequestIs(s: NodeState, q: NodeId)
    requires |s.log| >= 1 && q in s.peers
    ensures var s' := BecomeLeaderState(s);
            && q in s'.nextIndex && s'.nextIndex[q] == |s.log| && s'.log == s.log
            && MakeAppendEntries(s', q) ==
               AppendEntries(s.currentTerm, s.id, |s.log| - 1, s.log[|s.log| - 1].term, [], s.commitIndex)
  {
    assert s.log[|s.log|..] == [];
  }

  /** A vote decides the election exactly when the votes are then more than half of the members. */
  lemma VoteDecides(cs: seq<Cluster>, i: nat, e: Event, s: NodeState, s': NodeState, sent: set<Packet>)
    requires StepAt(cs, i, e, s, s', sent) && e.Deliver? && e.p.msg.RequestVoteResponse?
    requires s.role == Candidate && e.p.msg.term == s.currentTerm
    ensures var q := s.votesReceived + if e.p.msg.voteGranted then {e.p.msg.voterId} else {};
            && s'.currentTerm == s.currentTerm
            && s'.role == (if 2 * |q| > |s.peers| + 1 then Leader else Candidate)
            && (|s.peers| + 1 == |cs[i].ids| ==> (s'.role == Leader <==> 2 * |q| > |cs[i].ids|))
            && (s'.role == Leader ==> Announces(cs[i].ids, e.p.dst, s, s', sent))
            && (s'.role == Candidate ==> s' == s.(votesReceived := q) && sent == {})
  {
    hide Run, StepAt, Announces, BecomeLeader;
    StepIs(cs, i, e, s, s', sent);
    Membership(cs, i, Target(e));
    var q := s.votesReceived + if e.p.msg.voteGranted then {e.p.msg.voterId} else {};
    var s1 := s.(votesReceived := q);
    assert q == s.votesReceived ==> s1 == s;
    LeaderAnnounces(cs[i].ids, e.p.dst, s1);
    SameAnnounce(cs[i].ids, e.p.dst, s1, s, s', sent);
  }

  lemma SameAnnounce(ids: set<NodeId>, n: NodeId, s1: NodeState, s: NodeState, s': NodeState, sent: set<Packet>)
    requires s1 == s.(votesReceived := s1.votesReceived)
    ensures Announces(ids, n, s1, s', sent) == Announces(ids, n, s, s', sent)
  {}

  /** The voter has not promised its vote of the request's term to anybody else. */
  predicate Free(s: NodeState, m: Message)
    requires m.RequestVote?
  {
    m.term > s.currentTerm
    || (m.term == s.currentTerm && (s.votedFor == None || s.votedFor == Some(m.candidateId)))
  }

  /** Pairs (term, index) compared by term first. */
  predicate NotBehind(term: nat, index: nat, log: seq<LogEntry>)
    requires |log| >= 1
  {
    var (t, k) := (log[|log| - 1].term, |log| - 1);
    if term == t then index >= k else term > t
  }

  /** A vote is granted exactly when the voter is free and the candidate's log does not end behind its own. */
  lemma BallotDecides(cs: seq<Cluster>, i: nat, e: Event, s: NodeState, s': NodeState, sent: set<Packet>)
    requires StepAt(cs, i, e, s, s', sent) && e.Deliver? && e.p.msg.RequestVote?
    ensures var m := e.p.msg;
            && |s.log| >= 1
            && var granted := Free(s, m) && NotBehind(m.lastLogTerm, m.lastLogIndex, s.log);
               && Packet(m.candidateId, RequestVoteResponse(s'.currentTerm, e.p.dst, granted)) in sent
               && Packet(m.candidateId, RequestVoteResponse(s'.currentTerm, e.p.dst, !granted)) !in sent
               && s'.currentTerm == Max(s.currentTerm, m.term)
               && (granted ==> s'.votedFor == Some(m.candidateId))
               && (!granted ==> s'.votedFor == if m.term > s.currentTerm then None else s.votedFor)
               && s'.log == s.log && (m.term <= s.currentTerm ==> s'.role == s.role)
  {
    hide Run, StepAt;
    StepIs(cs, i, e, s, s', sent);
    Membership(cs, i, Target(e));
  }

  // ---------------------------------------------------------------- terms

  predicate BetweenNodes(m: Message) {
    m.RequestVote? || m.RequestVoteResponse? || m.AppendEntries? || m.AppendEntriesResponse?
  }

  lemma FollowerAdopts(s: NodeState, m: Message)
    requires Sane(s) && m.AppendEntries? && m.term > s.currentTerm
    ensures var x := HandleAppendEntries(s, m).0;
            && x.state.currentTerm == m.term && x.state.role == Follower && x.state.pending == map[]
            && StepDown(s, m.term).sent <= x.sent
  {
    hide Reconcile, Replay, Reply;
  }

  lemma OthersAdopt(s: NodeState, m: Message)
    requires CanHandle(s, m) && BetweenNodes(m) && !m.AppendEntries? && m.term > s.currentTerm
    ensures var x := HandleMessage(s, m);
            && x.state.currentTerm == m.term && x.state.role == Follower && x.state.pending == map[]
            && StepDown(s, m.term).sent <= x.sent
            && x.state.(votedFor := s.votedFor) ==
               s.(currentTerm := m.term, role := Follower, leaderId := None, pending := map[])
            && (!m.RequestVote? ==> x.state.votedFor == None)
  {
    hide UpToDate, Reply;
  }

  lemma EveryoneTold(s: NodeState, term: nat, k: (nat, nat))
    requires k in s.pending
    ensures Packet(s.pending[k].clientId,
                   ClientResponse(s.pending[k].requestId, false, None, LeadershipChanged, term))
            in StepDown(s, term).sent
  {
    assert Reply(s.pending[k], false, None, LeadershipChanged, term) in StepDown(s, term).sent;
  }

  /** A newer term is adopted whatever message brings it; the node follows and keeps no client waiting. */
  lemma NewerTermIsAdopted(cs: seq<Cluster>, i: nat, e: Event, s: NodeState, s': NodeState, sent: set<Packet>)
    requires StepAt(cs, i, e, s, s', sent) && e.Deliver? && BetweenNodes(e.p.msg) && e.p.msg.term > s.currentTerm
    ensures s'.currentTerm == e.p.msg.term && s'.role == Follower && s'.pending == map[]
    ensures !e.p.msg.AppendEntries? ==>
              s'.(votedFor := s.votedFor) ==
              s.(currentTerm := e.p.msg.term, role := Follower, leaderId := None, pending := map[])
    ensures !e.p.msg.AppendEntries? && !e.p.msg.RequestVote? ==> s'.votedFor == None
    ensures forall k :: k in s.pending ==>
              Packet(s.pending[k].clientId,
                     ClientResponse(s.pending[k].requestId, false, None, LeadershipChanged, e.p.msg.term)) in sent
  {
    hide Run, StepAt, HandleAppendEntries, StepDown, HandleMessage;
    StepIs(cs, i, e, s, s', sent);
    if e.p.msg.AppendEntries? {
      FollowerAdopts(s, e.p.msg);
      DeliveredAppend(s, e.p.msg);
    } else {
      OthersAdopt(s, e.p.msg);
    }
    forall k | k in s.pending
      ensures Packet(s.pending[k].clientId,
                     ClientResponse(s.pending[k].requestId, false, None, LeadershipChanged, e.p.msg.term)) in sent
    {
      EveryoneTold(s, e.p.msg.term, k);
    }
  }

  lemma DeliveredAppend(s: NodeState, m: Message)
    requires Sane(s) && m.AppendEntries?
    ensures var (x, r) := HandleAppendEntries(s, m);
            HandleMessage(s, m) == Effect(x.state, x.sent + {Packet(m.leaderId, r)})
  {
    hide HandleAppendEntries;
  }

  /** A message of an older term changes nothing; a request is refused with the newer term. */
  lemma OlderTermIsRefused(cs: seq<Cluster>, i: nat, e: Event, s: NodeState, s': NodeState, sent: set<Packet>)
    requires StepAt(cs, i, e, s, s', sent) && e.Deliver? && BetweenNodes(e.p.msg) && e.p.msg.term < s.currentTerm
    ensures var m, n := e.p.msg, e.p.dst;
            && s' == s
            && sent == (match m
                        case RequestVote(_, c, _, _) => {Packet(c, RequestVoteResponse(s.currentTerm, n, false))}
                        case AppendEntries(_, l, _, _, _, _) =>
                          {Packet(l, AppendEntriesResponse(s.currentTerm, n, false, |s.log| - 1))}
                        case _ => {})
  {
    hide Run, StepAt, Reconcile, Replay, UpToDate;
    StepIs(cs, i, e, s, s', sent);
    Membership(cs, i, Target(e));
  }

  /** An answer that nobody waits for any more, of the node's own term, changes nothing. */
  lemma LateAnswerIsIgnored(cs: seq<Cluster>, i: nat, e: Event, s: NodeState, s': NodeState, sent: set<Packet>)
    requires StepAt(cs, i, e, s, s', sent) && e.Deliver?
    requires match e.p.msg
             case RequestVoteResponse(t, _, _) => t == s.currentTerm && s.role != Candidate
             case AppendEntriesResponse(t, _, _, _) => t == s.currentTerm && s.role != Leader
             case ClientResponse(_, _, _, _, _) => true
             case _ => false
    ensures s' == s && sent == {}
  {
    hide Run, StepAt;
    StepIs(cs, i, e, s, s', sent);
  }

  /** A restart keeps what is stored and what was applied, and forgets the rest. */
  lemma RebootForgets(cs: seq<Cluster>, i: nat, e: Event, s: NodeState, s': NodeState, sent: set<Packet>)
    requires StepAt(cs, i, e, s, s', sent) && e.Reboot?
    ensures s'.currentTerm == s.currentTerm && s'.votedFor == s.votedFor && s'.log == s.log
    ensures s'.commitIndex == s.commitIndex && s'.lastApplied == s.lastApplied && s'.db == s.db
    ensures s'.role == Follower && s'.leaderId == None && s'.votesReceived == {} && s'.pending == map[]
    ensures s'.nextIndex == map[] && s'.matchIndex == map[] && sent == {}
  {
    hide Run, StepAt;
    StepIs(cs, i, e, s, s', sent);
  }

  // ---------------------------------------------------------------- replication

  /** What a leader sends a member: everything it holds from that member's next index on. */
  function SuffixFor(s: NodeState, n: NodeId, q: NodeId, commit: nat): Packet
    requires q in s.nextIndex && 1 <= s.nextIndex[q] <= |s.log|
  {
    var next := s.nextIndex[q];
    Packet(q, AppendEntries(s.currentTerm, n, next - 1, s.log[next - 1].term, s.log[next..], commit))
  }

  lemma BeatsReachAll(s: NodeState, n: NodeId, ids: set<NodeId>, q: NodeId)
    requires Sane(s) && s.role == Leader && s.id == n && SeqSet(s.peers) == ids - {n} && q in ids - {n}
    ensures q in s.nextIndex && 1 <= s.nextIndex[q] <= |s.log| && SuffixFor(s, n, q, s.commitIndex) in Heartbeats(s)
  {
    assert q in SeqSet(s.peers);
    assert MakeAppendEntries(s, q) == SuffixFor(s, n, q, s.commitIndex).msg;
  }

  /** A leader's heartbeat reaches every other member, with all that the member may lack; nobody else sends one. */
  lemma HeartbeatReachesAll(cs: seq<Cluster>, i: nat, e: Event, s: NodeState, s': NodeState, sent: set<Packet>)
    requires StepAt(cs, i, e, s, s', sent) && e.Heartbeat?
    ensures s' == s && (s.role != Leader ==> sent == {})
    ensures s.role == Leader ==>
              forall q :: q in cs[i].ids - {e.n} ==>
                q in s.nextIndex && 1 <= s.nextIndex[q] <= |s.log| && SuffixFor(s, e.n, q, s.commitIndex) in sent
  {
    hide Run, StepAt, Heartbeats, LeaderReady, SuffixFor;
    StepIs(cs, i, e, s, s', sent);
    Membership(cs, i, e.n);
    if s.role == Leader {
      forall q | q in cs[i].ids - {e.n}
        ensures q in s.nextIndex && 1 <= s.nextIndex[q] <= |s.log| && SuffixFor(s, e.n, q, s.commitIndex) in sent
      {
        BeatsReachAll(s, e.n, cs[i].ids, q);
      }
    }
  }

  predicate IsWrite(m: Message) { m.ClientCommand? || m.ClientRequest? }

  lemma WriteSends(s: NodeState, m: Message)
    requires Sane(s) && IsWrite(m) && s.role == Leader && |s.peers| > 0
    ensures var x, s1 := HandleMessage(s, m), AppendEntry(s, m.command);
            Sane(s1) && x.sent >= Heartbeats(s1) && x.state.(pending := s.pending) == s1
  {
    hide Heartbeats;
  }

  /** A write that reaches a leader is appended and sent on, behind all that the member may lack, to every member. */
  lemma WriteReachesAll(cs: seq<Cluster>, i: nat, e: Event, s: NodeState, s': NodeState, sent: set<Packet>, q: NodeId)
    requires StepAt(cs, i, e, s, s', sent) && e.Deliver? && IsWrite(e.p.msg) && s.role == Leader
    requires q in cs[i].ids && q != e.p.dst
    ensures s'.log == s.log + [LogEntry(s.currentTerm, e.p.msg.command)]
    ensures s'.role == Leader && s'.currentTerm == s.currentTerm && s'.nextIndex == s.nextIndex
    ensures q in s.nextIndex && 1 <= s.nextIndex[q] <= |s.log| && SuffixFor(s', e.p.dst, q, s.commitIndex) in sent
    ensures var m := SuffixFor(s', e.p.dst, q, s.commitIndex).msg;
            && m.term == s.currentTerm && m.prevLogIndex + |m.entries| == |s.log|
            && m.entries[|m.entries| - 1] == LogEntry(s.currentTerm, e.p.msg.command)
  {
    hide Run, StepAt, Heartbeats, LeaderReady;
    StepIs(cs, i, e, s, s', sent);
    Membership(cs, i, e.p.dst);
    assert q in SeqSet(s.peers);
    WriteSends(s, e.p.msg);
    BeatsReachAll(AppendEntry(s, e.p.msg.command), e.p.dst, cs[i].ids, q);
    IndicesInRange(cs, i, e.p.dst, q);
  }

  /** The members known to hold the leader's log up to index k. */
  function Holders(s: NodeState, n: NodeId, k: nat): set<NodeId> {
    {n} + set q | q in s.matchIndex && s.matchIndex[q] >= k
  }

  /** More than half of the members hold the leader's own-term entry k. */
  predicate Counted(s: NodeState, n: NodeId, k: nat) {
    k < |s.log| && s.log[k].term == s.currentTerm && 2 * |Holders(s, n, k)| > |s.peers| + 1
  }

  lemma CountsHolders(s: NodeState, n: NodeId, k: nat)
    requires n !in s.matchIndex
    ensures Committable(s, k) <==> Counted(s, n, k)
  {
    assert Holders(s, n, k) == {n} + Replicas(s, k);
  }

  /** The commit index moves to the last entry that more than half hold, if it lies ahead; all of it is applied. */
  ghost predicate Advanced(s: NodeState, n: NodeId, s': NodeState) {
    && s.commitIndex <= s'.commitIndex < |s.log| && s'.lastApplied == Max(s.lastApplied, s'.commitIndex)
    && (forall k: nat :: Counted(s, n, k) ==> k <= s'.commitIndex)
    && (s'.commitIndex == s.commitIndex || Counted(s, n, s'.commitIndex))
  }

  lemma CommitAdvances(s: NodeState, n: NodeId)
    requires Sane(s) && n !in s.matchIndex
    ensures var s' := UpdateCommitIndex(s).state;
            && Advanced(s, n, s')
            && s'.(db := s.db, pending := s.pending) ==
               s.(commitIndex := s'.commitIndex, lastApplied := s'.lastApplied)
  {
    hide Counted, Committable, ScanCommit, Replay, AppliedKeys, Reply;
    ScanCommitBound(s, |s.log| - 1);
    forall k: nat ensures Committable(s, k) <==> Counted(s, n, k) {
      CountsHolders(s, n, k);
    }
    assert forall k: nat :: Counted(s, n, k) ==> k < |s.log| by { CountedInLog(s, n); }
  }

  lemma CountedInLog(s: NodeState, n: NodeId)
    ensures forall k: nat :: Counted(s, n, k) ==> k < |s.log|
  {
    hide Holders;
  }

  predicate CurrentResponse(s: NodeState, e: Event) {
    e.Deliver? && e.p.msg.AppendEntriesResponse? && s.role == Leader && e.p.msg.term == s.currentTerm
  }

  /** An acceptance is recorded, and the commit index moves to the last entry that more than half then hold. */
  lemma AcceptanceCounts(cs: seq<Cluster>, i: nat, e: Event, s: NodeState, s': NodeState, sent: set<Packet>)
    requires StepAt(cs, i, e, s, s', sent) && CurrentResponse(s, e) && e.p.msg.success
    ensures var f, k := e.p.msg.followerId, e.p.msg.matchIndex;
            && s'.matchIndex == s.matchIndex[f := k] && s'.nextIndex == s.nextIndex[f := k + 1]
            && s'.role == Leader && s'.currentTerm == s.currentTerm && s'.log == s.log && s'.peers == s.peers
            && Advanced(s.(matchIndex := s'.matchIndex), e.p.dst, s')
  {
    hide Run, StepAt, UpdateCommitIndex, Advanced;
    StepIs(cs, i, e, s, s', sent);
    Membership(cs, i, e.p.dst);
    var f, k := e.p.msg.followerId, e.p.msg.matchIndex;
    var s1 := s.(matchIndex := s.matchIndex[f := k], nextIndex := s.nextIndex[f := k + 1]);
    FollowerIsOther(cs, i, e.p);
    CommitAdvances(s1, e.p.dst);
    SameAdvance(s1, s.(matchIndex := s'.matchIndex), e.p.dst, s');
  }

  lemma SameAdvance(s1: NodeState, s2: NodeState, n: NodeId, s': NodeState)
    requires s1.(nextIndex := s2.nextIndex) == s2
    ensures Advanced(s1, n, s') == Advanced(s2, n, s')
  {
    assert forall k :: Holders(s1, n, k) == Holders(s2, n, k);
    assert forall k :: Counted(s1, n, k) == Counted(s2, n, k);
  }

  lemma FollowerIsOther(cs: seq<Cluster>, i: nat, p: Packet)
    requires Run(cs) && i < |cs| && p in cs[i].net && p.msg.AppendEntriesResponse?
    ensures p.msg.followerId in cs[i].ids && p.msg.followerId != p.dst
  {
    hide Inv, Run;
    Reachable(cs, i);
    PacketHolds(cs[i], p);
  }

  /** When peers are listed once, the count is of the cluster: an own-term entry held by more than half is committed. */
  lemma HeldByMostIsCommitted(cs: seq<Cluster>, i: nat, e: Event, s: NodeState, s': NodeState, sent: set<Packet>,
                              q: set<NodeId>, k: nat)
    requires StepAt(cs, i, e, s, s', sent) && CurrentResponse(s, e) && e.p.msg.success
    requires |s.peers| + 1 == |cs[i].ids| && k < |s.log| && s.log[k].term == s.currentTerm
    requires forall x :: x in q ==> x == e.p.dst || (x in s'.matchIndex && s'.matchIndex[x] >= k)
    requires 2 * |q| > |cs[i].ids|
    ensures k <= s'.commitIndex && k <= s'.lastApplied
  {
    hide Run, StepAt;
    AcceptanceCounts(cs, i, e, s, s', sent);
    var s1 := s.(matchIndex := s'.matchIndex);
    var h := Holders(s1, e.p.dst, k);
    assert q <= h;
    FewerInSubset(q, h);
    assert Counted(s1, e.p.dst, k);
  }

  lemma FewerInSubset<T>(a: set<T>, b: set<T>)
    requires a <= b
    ensures |a| <= |b|
  {
    assert b == a + (b - a);
  }

  /** A rejection moves the member's next index one back, not below 1, and sends everything from there on. */
  lemma RejectionRetries(cs: seq<Cluster>, i: nat, e: Event, s: NodeState, s': NodeState, sent: set<Packet>)
    requires StepAt(cs, i, e, s, s', sent) && CurrentResponse(s, e) && !e.p.msg.success
    ensures var f := e.p.msg.followerId;
            && f in s.nextIndex && 1 <= s.nextIndex[f] <= |s.log|
            && s' == s.(nextIndex := s.nextIndex[f := Max(1, s.nextIndex[f] - 1)])
            && sent == {SuffixFor(s', e.p.dst, f, s.commitIndex)}
  {
    hide Run, StepAt;
    StepIs(cs, i, e, s, s', sent);
    Membership(cs, i, e.p.dst);
  }

  /** A write to a cluster of one is committed and applied at once. */
  lemma AloneCommits(cs: seq<Cluster>, i: nat, e: Event, s: NodeState, s': NodeState, sent: set<Packet>)
    requires StepAt(cs, i, e, s, s', sent) && e.Deliver? && IsWrite(e.p.msg) && s.role == Leader
    requires cs[i].ids == {e.p.dst}
    ensures s'.log == s.log + [LogEntry(s.currentTerm, e.p.msg.command)]
    ensures s'.commitIndex == |s.log| == s'.lastApplied
  {
    hide Run, StepAt, UpdateCommitIndex, Advanced, Holders;
    StepIs(cs, i, e, s, s', sent);
    Membership(cs, i, e.p.dst);
    NoPeers(s.peers);
    var s1 := AppendEntry(s, e.p.msg.command);
    CommitAdvances(s1, e.p.dst);
    AloneCounts(s1, e.p.dst);
    AdvancedReaches(s1, e.p.dst, UpdateCommitIndex(s1).state, |s.log|);
    DbIsReplay(cs, i, e.p.dst);
  }

  lemma AloneCounts(s: NodeState, n: NodeId)
    requires s.peers == [] && |s.log| >= 1 && s.log[|s.log| - 1].term == s.currentTerm
    ensures Counted(s, n, |s.log| - 1)
  {
    assert n in Holders(s, n, |s.log| - 1);
  }

  lemma AdvancedReaches(s: NodeState, n: NodeId, s': NodeState, k: nat)
    requires Advanced(s, n, s') && Counted(s, n, k)
    ensures k <= s'.commitIndex < |s.log| && s'.lastApplied == Max(s.lastApplied, s'.commitIndex)
  {}

  // ---------------------------------------------------------------- following

  /** The log holds `entries` from index `at` on. */
  predicate HoldsAt(log: seq<LogEntry>, at: nat, entries: seq<LogEntry>) {
    at + |entries| <= |log| && log[at..at + |entries|] == entries
  }

  lemma ReconcileIsReplace(log: seq<LogEntry>, leader: seq<LogEntry>, at: nat, entries: seq<LogEntry>)
    requires 1 <= at <= |log| && at + |entries| <= |leader| && entries == leader[at..at + |entries|]
    requires log[at - 1].term == leader[at - 1].term && Matching(log, leader)
    ensures Reconcile(log, at, entries) == if HoldsAt(log, at, entries) then log else log[..at] + entries
  {
    hide Reconcile, Matching;
    var cut := ReconcileCut(log, leader, at, entries);
    var end := at + |entries|;
    assert log[..at] == log[..cut][..at] == leader[..cut][..at] == leader[..at];
    assert leader[..at] + leader[at..end] == leader[..end];
    if cut == end {
      assert log[at..end] == log[..cut][at..end] == leader[..cut][at..end] == leader[at..end];
    } else {
      assert entries[cut - at] == leader[cut];
      assert end <= |log| ==> log[at..end][cut - at] == log[cut];
    }
  }

  /** The log of a follower before it takes a request in, and what the request brings, come from logs that match. */
  lemma RequestMatches(cs: seq<Cluster>, i: nat, p: Packet, s: NodeState) returns (leader: seq<LogEntry>)
    requires Run(cs) && i < |cs| && p in cs[i].net && p.dst in cs[i].nodes && p.msg.AppendEntries?
    requires s == cs[i].nodes[p.dst]
    ensures var at, es := p.msg.prevLogIndex + 1, p.msg.entries;
            && at + |es| <= |leader| && es == leader[at..at + |es|] && p.msg.prevLogTerm == leader[at - 1].term
            && Matching(s.log, leader)
  {
    hide Run, BallotsOk, Completeness, VotesCover, TicketsOk, NodesOk, PacketsOk, PrefixCommitted, RoleOk, KeepsAcked,
      CommitOk, LogOk, Matching, Elected;
    Reachable(cs, i);
    PacketHolds(cs[i], p);
    NodeHolds(cs[i], p.dst);
    leader := cs[i].hist.termLog[p.msg.term];
    BackedMatch(cs[i].hist.termLog, s.log, leader, s.currentTerm, p.msg.term);
  }

  lemma RequestTaken(s: NodeState, m: Message)
    requires Sane(s) && m.AppendEntries? && m.term >= s.currentTerm && m.leaderCommit <= m.prevLogIndex + |m.entries|
    ensures var ok := m.prevLogIndex < |s.log| && s.log[m.prevLogIndex].term == m.prevLogTerm;
            var (x, r) := HandleAppendEntries(s, m);
            && x.state.currentTerm == m.term && x.state.role == Follower && x.state.leaderId == Some(m.leaderId)
            && r == AppendEntriesResponse(m.term, s.id, ok, if ok then m.prevLogIndex + |m.entries| else |s.log| - 1)
            && x.state.log == (if ok then Reconcile(s.log, m.prevLogIndex + 1, m.entries) else s.log)
            && x.state.commitIndex == (if ok then m.leaderCommit else s.commitIndex)
            && x.state.lastApplied == (if ok then Max(s.lastApplied, m.leaderCommit) else s.lastApplied)
  {
    hide Reconcile, Replay, AppliedKeys, Reply;
  }

  /**
    A request of the node's term or a newer one is accepted exactly when the log holds the entry before it. Then the
    follower holds what was sent, keeps what it already held of it, has the leader's commit index and applies up to
    it; the answer says how far the two logs agree. Otherwise only the term and the leader are taken over.
  */
  lemma FollowerTakes(cs: seq<Cluster>, i: nat, e: Event, s: NodeState, s': NodeState, sent: set<Packet>)
    requires StepAt(cs, i, e, s, s', sent) && e.Deliver? && e.p.msg.AppendEntries? && e.p.msg.term >= s.currentTerm
    ensures var m := e.p.msg;
            var ok := m.prevLogIndex < |s.log| && s.log[m.prevLogIndex].term == m.prevLogTerm;
            var held := if ok then m.prevLogIndex + |m.entries| else |s.log| - 1;
            && s'.currentTerm == m.term && s'.role == Follower && s'.leaderId == Some(m.leaderId)
            && held >= 0 && Packet(m.leaderId, AppendEntriesResponse(m.term, e.p.dst, ok, held)) in sent
            && (!ok ==> s'.log == s.log && s'.commitIndex == s.commitIndex && s'.lastApplied == s.lastApplied)
            && (ok ==>
                  && s'.log == (if HoldsAt(s.log, m.prevLogIndex + 1, m.entries) then s.log
                                else s.log[..m.prevLogIndex + 1] + m.entries)
                  && s'.commitIndex == m.leaderCommit && s'.lastApplied == Max(s.lastApplied, m.leaderCommit))
  {
    hide Run, StepAt, HandleAppendEntries, HoldsAt, Matching, Reconcile, HandleMessage;
    StepIs(cs, i, e, s, s', sent);
    var m := e.p.msg;
    Membership(cs, i, e.p.dst);
    RequestsCoverCommit(cs, i, e.p);
    RequestTaken(s, m);
    DeliveredAppend(s, m);
    if m.prevLogIndex < |s.log| && s.log[m.prevLogIndex].term == m.prevLogTerm {
      var leader := RequestMatches(cs, i, e.p, s);
      ReconcileIsReplace(s.log, leader, m.prevLogIndex + 1, m.entries);
    }
  }
}
