/** Every step of the cluster keeps the invariant, and none fails an assertion. */
module RaftPreservation {
  import opened Commands
  import opened RaftTypes
  import opened RaftHandlers
  import opened RaftCluster
  import opened RaftInvariants
  import opened RaftFrames
  import opened RaftSteps
  import opened RaftBallots
  import opened RaftLogs
  import opened RaftFollower

  // ---------------------------------------------------------------- no assertion fails

  lemma NodeSane(c: Cluster, n: NodeId)
    requires n in c.nodes && NodeOk(c, n)
    ensures Sane(c.nodes[n])
  {
    hide PrefixCommitted, KeepsAcked;
  }

  lemma ResponseRange(c: Cluster, n: NodeId, p: Packet)
    requires c.nodes.Keys == c.ids && n in c.ids && p.dst == n && p.msg.AppendEntriesResponse?
    requires BallotsOk(c) && NodeOk(c, n) && PacketOk(c, p)
    ensures ResponseInRange(c.nodes[n], p.msg)
  {
    hide CommitOk, KeepsAcked, LogOk, PendingOk, VotesOk, CandidateOk;
    assert p.msg.followerId in SeqSet(c.nodes[n].peers);
  }

  lemma EventInRange(c: Cluster, e: Event, s: NodeState)
    requires c.nodes.Keys == c.ids && Enabled(c, e) && !e.Submit? && Target(e) in c.nodes && s == c.nodes[Target(e)]
    requires Inv(c)
    ensures NoPanic(s, e)
  {
    hide NodeOk, TermsOk, Completeness, BallotsOk, TicketsOk, PacketsOk, VotesCover, NodesOk, PacketOk, Sane;
    var n := Target(e);
    NodeHolds(c, n);
    NodeSane(c, n);
    if e.Deliver? && e.p.msg.AppendEntriesResponse? {
      PacketHolds(c, e.p);
      ResponseRange(c, n, e.p);
    }
  }

  // ---------------------------------------------------------------- composing moves

  lemma MoveMove(c: Cluster, n: NodeId, s: NodeState, s': NodeState, a: set<Packet>, b: set<Packet>, h: History,
                 h': History)
    ensures Move(Move(c, n, s, a, h), n, s', b, h') == Move(c, n, s', a + b, h')
  {
    assert c.nodes[n := s][n := s'] == c.nodes[n := s'];
    assert c.net + a + b == c.net + (a + b);
  }

  /** In a good state the node's own ballot and log are already on record. */
  lemma RecordIdle(c: Cluster, n: NodeId, s: NodeState)
    requires RoleOk(c, n, s) && (s.role == Leader ==> |s.log| >= 1)
    ensures RecordState(c.hist, n, s) == c.hist
  {
    var h := c.hist;
    if s.votedFor.Some? {
      assert h.votes[(n, s.currentTerm) := s.votedFor.value] == h.votes;
    }
    if s.role == Leader {
      assert h.termLog[s.currentTerm := s.log] == h.termLog;
      assert h.leaderOf[s.currentTerm := n] == h.leaderOf;
      assert h.acks[(n, s.currentTerm) := |s.log| - 1] == h.acks;
    }
  }

  lemma RecordsIdle(c: Cluster, n: NodeId)
    requires Inv(c) && n in c.ids
    ensures RecordState(c.hist, n, c.nodes[n]) == c.hist
  {
    hide TermsOk, Completeness, BallotsOk, TicketsOk, PacketsOk, VotesCover, NodesOk, RoleOk, CommitOk, KeepsAcked,
      RecordState;
    NodeHolds(c, n);
    RecordIdle(c, n, c.nodes[n]);
  }

  /** Recording a quiet move records its answers only. */
  lemma QuietRecord(c: Cluster, n: NodeId, s: NodeState, sent: set<Packet>, answered: set<(NodeId, nat, nat)>)
    requires n in c.ids && Inv(Move(c, n, s, sent, Answer(c.hist, answered)))
    ensures Answer(RecordState(c.hist, n, s), answered) == Answer(c.hist, answered)
  {
    hide Inv;
    var c' := Move(c, n, s, sent, Answer(c.hist, answered));
    assert c'.nodes[n] == s;
    RecordsIdle(c', n);
    assert RecordState(Answer(c.hist, answered), n, s) == Answer(RecordState(c.hist, n, s), answered);
  }

  // ---------------------------------------------------------------- requests a leader sends

  lemma RequestOk(c: Cluster, n: NodeId, peer: NodeId)
    requires n in c.nodes && NodeOk(c, n) && c.nodes[n].role == Leader && peer != n
    requires peer in c.nodes[n].nextIndex && 1 <= c.nodes[n].nextIndex[peer] <= |c.nodes[n].log|
    ensures PacketOk(c, Packet(peer, MakeAppendEntries(c.nodes[n], peer)))
  {
    hide LogOk, KeepsAcked, PrefixCommitted;
  }

  lemma HeartbeatsOk(c: Cluster, n: NodeId)
    requires n in c.nodes && NodeOk(c, n) && c.nodes[n].role == Leader && Sane(c.nodes[n])
    ensures forall p :: p in Heartbeats(c.nodes[n]) ==> PacketOk(c, p)
  {
    hide PacketOk, MakeAppendEntries;
    var s := c.nodes[n];
    forall p | p in Heartbeats(s) ensures PacketOk(c, p) {
      var q :| q in s.peers && p == Packet(q, MakeAppendEntries(s, q));
      PeerIsOther(c, n, q);
      hide NodeOk;
      RequestOk(c, n, q);
    }
  }

  lemma PeerIsOther(c: Cluster, n: NodeId, q: NodeId)
    requires n in c.nodes && NodeOk(c, n) && q in c.nodes[n].peers
    ensures q != n && q in c.ids
  {
    assert q in SeqSet(c.nodes[n].peers);
  }

  /** A leader that sends to all its peers. */
  lemma BroadcastMove(c: Cluster, n: NodeId)
    requires c.nodes.Keys == c.ids && n in c.ids && c.nodes[n].role == Leader && Sane(c.nodes[n])
    requires Inv(c)
    ensures Inv(Move(c, n, c.nodes[n], Heartbeats(c.nodes[n]), c.hist))
  {
    hide NodeOk, TermsOk, Completeness, BallotsOk, TicketsOk, PacketsOk, VotesCover, NodesOk, PacketOk, Sane,
      Heartbeats;
    NodeHolds(c, n);
    HeartbeatsOk(c, n);
    SendMove(c, n, Heartbeats(c.nodes[n]));
  }

  // ---------------------------------------------------------------- elections

  lemma MajorityIsQuorum(c: Cluster, n: NodeId, s: NodeState, q: set<NodeId>)
    requires PeersOf(c.ids, n, s.peers) && q <= c.ids && |q| >= Majority(s)
    ensures Quorum(c.ids, q)
  {}

  lemma VotesAreVoters(c: Cluster, n: NodeId)
    requires n in c.nodes && NodeOk(c, n) && c.nodes[n].role == Candidate
    ensures c.nodes[n].votesReceived <= c.ids && PeersOf(c.ids, n, c.nodes[n].peers)
  {}

  /** A candidate with a majority becomes leader and announces itself. */
  lemma WinMove(c: Cluster, n: NodeId)
    requires c.nodes.Keys == c.ids && n in c.ids && c.nodes[n].role == Candidate && Sane(c.nodes[n])
    requires |c.nodes[n].votesReceived| >= Majority(c.nodes[n])
    requires Inv(c)
    ensures var s, x := c.nodes[n], BecomeLeader(c.nodes[n]);
            Inv(Move(c, n, x.state, x.sent, Lead(c.hist, n, s.currentTerm, s.log)))
  {
    hide NodeOk, TermsOk, Completeness, BallotsOk, TicketsOk, PacketsOk, VotesCover, NodesOk, PacketOk, Heartbeats,
      Quorum, Majority;
    var s := c.nodes[n];
    NodeHolds(c, n);
    VotesAreVoters(c, n);
    MajorityIsQuorum(c, n, s, s.votesReceived);
    ElectMove(c, n);
    var s', h' := BecomeLeaderState(s), Lead(c.hist, n, s.currentTerm, s.log);
    var c' := Move(c, n, s', {}, h');
    BroadcastMove(c', n);
    MoveMove(c, n, s', s', {}, Heartbeats(s'), h', h');
    assert {} + Heartbeats(s') == Heartbeats(s');
  }

  lemma VoteRequestsOk(c: Cluster, n: NodeId)
    requires n in c.nodes && NodeOk(c, n) && c.nodes[n].role == Candidate && c.nodes[n].currentTerm > 0
             && |c.nodes[n].log| >= 1
    ensures forall p :: p in (set q | q in c.nodes[n].peers :: Packet(q, VoteRequest(c.nodes[n]))) ==> PacketOk(c, p)
  {
    hide LogOk, CommitOk, KeepsAcked, CandidateOk, VotesOk, PendingOk;
  }

  lemma ElectionStep(c: Cluster, n: NodeId)
    requires c.nodes.Keys == c.ids && n in c.ids && Sane(c.nodes[n])
    requires Inv(c)
    ensures var s, x := c.nodes[n], StartElection(c.nodes[n]);
            Inv(Move(c, n, x.state, x.sent, RecordState(c.hist, n, x.state)))
  {
    hide NodeOk, TermsOk, Completeness, BallotsOk, TicketsOk, PacketsOk, VotesCover, NodesOk, PacketOk, Heartbeats,
      Quorum, Majority;
    var s := c.nodes[n];
    NodeHolds(c, n);
    OwnId(c, n);
    var s1 := BecomeCandidate(s);
    var h1 := CastVote(c.hist, n, s1.currentTerm, n);
    var c1 := Move(c, n, s1, {}, h1);
    CandidacyMove(c, n);
    NodeHolds(c1, n);
    if |s1.votesReceived| >= Majority(s1) {
      WinMove(c1, n);
      var x := BecomeLeader(s1);
      var h2 := Lead(h1, n, s1.currentTerm, s1.log);
      MoveMove(c, n, s1, x.state, {}, x.sent, h1, h2);
      assert {} + x.sent == x.sent;
      assert RecordState(c.hist, n, x.state) == h2;
    } else {
      var requests := set p | p in s1.peers :: Packet(p, VoteRequest(s1));
      VoteRequestsOk(c1, n);
      SendMove(c1, n, requests);
      MoveMove(c, n, s1, s1, {}, requests, h1, h1);
      assert {} + requests == requests;
    }
  }

  lemma OwnId(c: Cluster, n: NodeId)
    requires n in c.nodes && NodeOk(c, n)
    ensures c.nodes[n].id == n
  {}

  lemma StepDownStep(c: Cluster, n: NodeId, term: nat)
    requires c.nodes.Keys == c.ids && n in c.ids && term > c.nodes[n].currentTerm
    requires Inv(c)
    ensures var s, x := c.nodes[n], StepDown(c.nodes[n], term);
            Inv(Move(c, n, x.state, x.sent, RecordAnswers(RecordState(c.hist, n, x.state), n, s, x.state)))
  {
    hide Inv;
    var s, x := c.nodes[n], StepDown(c.nodes[n], term);
    StepDownMove(c, n, term);
    assert s.pending.Keys - x.state.pending.Keys == s.pending.Keys;
    QuietRecord(c, n, x.state, x.sent, TicketKeys(n, s.pending.Keys));
  }

  lemma VoteResponseStep(c: Cluster, n: NodeId, p: Packet)
    requires c.nodes.Keys == c.ids && n in c.ids && Sane(c.nodes[n]) && p in c.net && p.dst == n
             && p.msg.RequestVoteResponse?
    requires Inv(c)
    ensures var s, x := c.nodes[n], HandleVoteResponse(c.nodes[n], p.msg);
            Inv(Move(c, n, x.state, x.sent, RecordAnswers(RecordState(c.hist, n, x.state), n, s, x.state)))
  {
    hide Inv, Heartbeats, Majority, RecordState;
    var s, m, x := c.nodes[n], p.msg, HandleVoteResponse(c.nodes[n], p.msg);
    if m.term > s.currentTerm {
      StepDownStep(c, n, m.term);
    } else if m.term < s.currentTerm || s.role != Candidate {
      StayStep(c, n, {});
    } else {
      var s' := if m.voteGranted then s.(votesReceived := s.votesReceived + {m.voterId}) else s;
      if m.voteGranted {
        CollectVoteMove(c, n, p);
      } else {
        StayMove(c, n);
      }
      CountStep(c, n, s', x);
    }
  }

  /** After a vote is counted: the candidate wins or keeps waiting. */
  lemma CountStep(c: Cluster, n: NodeId, s': NodeState, x: Effect)
    requires c.nodes.Keys == c.ids && n in c.ids && c.nodes[n].role == Candidate && Sane(s')
    requires s' == c.nodes[n].(votesReceived := s'.votesReceived)
    requires x == if |s'.votesReceived| >= Majority(s') then BecomeLeader(s') else Effect(s', {})
    requires Inv(c) && Inv(Move(c, n, s', {}, c.hist))
    ensures Inv(Move(c, n, x.state, x.sent, RecordAnswers(RecordState(c.hist, n, x.state), n, c.nodes[n], x.state)))
  {
    hide Inv, Heartbeats, Majority, RecordAnswers;
    var s := c.nodes[n];
    NoAnswers(RecordState(c.hist, n, x.state), n, s, x.state);
    if |s'.votesReceived| >= Majority(s') {
      WinMove(Move(c, n, s', {}, c.hist), n);
      MoveMove(c, n, s', x.state, {}, x.sent, c.hist, Lead(c.hist, n, s.currentTerm, s.log));
      assert {} + x.sent == x.sent;
      CandidateOnRecord(c, n);
      assert RecordState(c.hist, n, x.state) == Lead(c.hist, n, s.currentTerm, s.log);
    } else {
      assert Answer(c.hist, {}) == c.hist && Answer(RecordState(c.hist, n, s'), {}) == RecordState(c.hist, n, s');
      QuietRecord(c, n, s', {}, {});
    }
  }

  lemma NoAnswers(h: History, n: NodeId, s: NodeState, s': NodeState)
    requires s.pending.Keys <= s'.pending.Keys
    ensures RecordAnswers(h, n, s, s') == h
  {
    assert TicketKeys(n, s.pending.Keys - s'.pending.Keys) == {};
    assert h.answered + {} == h.answered;
  }

  lemma CandidateOnRecord(c: Cluster, n: NodeId)
    requires n in c.ids && Inv(c)
    ensures c.nodes[n].votedFor.Some? ==>
              c.hist.votes[(n, c.nodes[n].currentTerm) := c.nodes[n].votedFor.value] == c.hist.votes
  {
    hide TermsOk, Completeness, BallotsOk, TicketsOk, PacketsOk, VotesCover, NodesOk, CommitOk, KeepsAcked, PendingOk,
      LeaderOk, CandidateOk, LogOk;
    NodeHolds(c, n);
  }

  lemma StayMove(c: Cluster, n: NodeId)
    requires n in c.nodes
    ensures Move(c, n, c.nodes[n], {}, c.hist) == c
  {
    assert c.nodes[n := c.nodes[n]] == c.nodes;
    assert c.net + {} == c.net;
  }

  /** A handler that only sends. */
  lemma StayStep(c: Cluster, n: NodeId, sent: set<Packet>)
    requires c.nodes.Keys == c.ids && n in c.ids && forall p :: p in sent ==> PacketOk(c, p)
    requires Inv(c)
    ensures var s := c.nodes[n];
            Inv(Move(c, n, s, sent, RecordAnswers(RecordState(c.hist, n, s), n, s, s)))
  {
    hide Inv, PacketOk;
    var s := c.nodes[n];
    SendMove(c, n, sent);
    assert Answer(c.hist, {}) == c.hist;
    assert TicketKeys(n, s.pending.Keys - s.pending.Keys) == {};
    QuietRecord(c, n, s, sent, {});
  }

  /** Sending after a recorded move. */
  lemma ThenSend(c: Cluster, n: NodeId, s: NodeState, sent: set<Packet>, h: History, more: set<Packet>)
    requires n in c.ids && Inv(Move(c, n, s, sent, h))
    requires forall p :: p in more ==> PacketOk(Move(c, n, s, sent, h), p)
    ensures Inv(Move(c, n, s, sent + more, h))
  {
    hide Inv, PacketOk;
    SendMove(Move(c, n, s, sent, h), n, more);
    MoveMove(c, n, s, s, sent, more, h, h);
  }

  lemma RecordCommutes(h: History, n: NodeId, s: NodeState, answered: set<(NodeId, nat, nat)>)
    ensures RecordState(Answer(h, answered), n, s) == Answer(RecordState(h, n, s), answered)
  {}

  /** Same term: the node grants or refuses, and answers. */
  lemma GrantStep(c: Cluster, n: NodeId, p: Packet)
    requires c.nodes.Keys == c.ids && n in c.ids && Sane(c.nodes[n]) && p in c.net && p.msg.RequestVote?
    requires p.msg.term == c.nodes[n].currentTerm && c.nodes[n].id == n
    requires Inv(c)
    ensures var (x, r) := HandleRequestVote(c.nodes[n], p.msg);
            Inv(Move(c, n, x.state, {Packet(p.msg.candidateId, r)}, RecordState(c.hist, n, x.state)))
  {
    hide Inv, UpToDate;
    var s, m := c.nodes[n], p.msg;
    var (x, r) := HandleRequestVote(s, m);
    var reply := Packet(m.candidateId, r);
    RecordsIdle(c, n);
    if r.voteGranted && s.votedFor.None? {
      GrantMove(c, n, p);
      var h' := CastVote(c.hist, n, s.currentTerm, m.candidateId);
      var c' := Move(c, n, x.state, {}, h');
      RecordsIdle(c', n);
      RecordCast(c, n, s, x.state, m.candidateId);
      ThenSend(c, n, x.state, {}, h', {reply});
      assert {} + {reply} == {reply};
    } else {
      assert x.state == s;
      if r.voteGranted {
        VoteOnRecord(c, n);
      }
      SendMove(c, n, {reply});
    }
  }

  lemma RecordCast(c: Cluster, n: NodeId, s: NodeState, s': NodeState, cand: NodeId)
    requires s' == s.(votedFor := Some(cand)) && s.votedFor.None?
    requires RecordState(c.hist, n, s) == c.hist
    ensures RecordState(c.hist, n, s') == CastVote(c.hist, n, s.currentTerm, cand)
  {
    var h, h' := c.hist, CastVote(c.hist, n, s.currentTerm, cand);
    if s.role == Leader {
      assert RecordState(h, n, s').votes == h'.votes;
      assert RecordState(h, n, s').acks == RecordState(h, n, s).acks;
      assert RecordState(h, n, s').termLog == RecordState(h, n, s).termLog;
      assert RecordState(h, n, s').leaderOf == RecordState(h, n, s).leaderOf;
    }
  }

  lemma VoteOnRecord(c: Cluster, n: NodeId)
    requires n in c.ids && Inv(c) && c.nodes[n].votedFor.Some?
    ensures c.nodes[n].votedFor.value in c.ids
    ensures var k := (n, c.nodes[n].currentTerm); k in c.hist.votes && c.hist.votes[k] == c.nodes[n].votedFor.value
  {
    hide TermsOk, Completeness, TicketsOk, PacketsOk, VotesCover, NodesOk, CommitOk, KeepsAcked, PendingOk,
      LeaderOk, CandidateOk, LogOk;
    NodeHolds(c, n);
  }

  lemma RequestVoteStep(c: Cluster, n: NodeId, p: Packet)
    requires c.nodes.Keys == c.ids && n in c.ids && Sane(c.nodes[n]) && p in c.net && p.dst == n && p.msg.RequestVote?
    requires Inv(c)
    ensures var s, x := c.nodes[n], HandleMessage(c.nodes[n], p.msg);
            Inv(Move(c, n, x.state, x.sent, RecordAnswers(RecordState(c.hist, n, x.state), n, s, x.state)))
  {
    hide Inv, UpToDate, RecordState;
    var s, m := c.nodes[n], p.msg;
    var (x, r) := HandleRequestVote(s, m);
    var reply := {Packet(m.candidateId, r)};
    MyId(c, n);
    assert {} + reply == reply;
    if m.term < s.currentTerm {
      StayStep(c, n, reply);
    } else if m.term > s.currentTerm {
      var e, answered := StepDown(s, m.term), TicketKeys(n, s.pending.Keys);
      StepDownMove(c, n, m.term);
      var c1 := Move(c, n, e.state, e.sent, Answer(c.hist, answered));
      GrantStep(c1, n, p);
      RecordCommutes(c.hist, n, x.state, answered);
      var h' := Answer(RecordState(c.hist, n, x.state), answered);
      MoveMove(c, n, e.state, x.state, e.sent, reply, c1.hist, h');
      assert s.pending.Keys - x.state.pending.Keys == s.pending.Keys;
    } else {
      GrantStep(c, n, p);
      NoAnswers(RecordState(c.hist, n, x.state), n, s, x.state);
    }
  }

  lemma MyId(c: Cluster, n: NodeId)
    requires n in c.ids && Inv(c)
    ensures c.nodes[n].id == n
  {
    hide TermsOk, Completeness, BallotsOk, TicketsOk, PacketsOk, VotesCover, NodesOk, CommitOk, KeepsAcked, PendingOk,
      LeaderOk, CandidateOk, LogOk, VotesOk;
    NodeHolds(c, n);
  }

  // ---------------------------------------------------------------- replication

  /** Accept, commit and apply: everything after the follower's test succeeded. */
  lemma TakeMove(c: Cluster, n: NodeId, p: Packet, s1: NodeState, x: Effect, h: History)
    requires Accepting(c, n, p) && p in c.net
    requires s1 == TakeEntries(c.nodes[n], p.msg) && x == ApplyCommitted(s1)
    requires h == Answer(RecordAck(c.hist, n, p.msg.term, p.msg.prevLogIndex + |p.msg.entries|),
                         TicketKeys(n, c.nodes[n].pending.Keys - x.state.pending.Keys))
    requires Inv(c)
    ensures Inv(Move(c, n, x.state, x.sent, h))
  {
    hide Inv, ApplyCommitted, Reconcile;
    AcceptMove(c, n, p);
    var c1 := Accepted(c, n, p);
    ApplyMove(c1, n);
    MoveMove(c, n, s1, x.state, {}, x.sent, c1.hist, h);
    assert {} + x.sent == x.sent;
  }

  /** Following the sender: step down if its term is newer, and become its follower. */
  lemma FollowStep(c: Cluster, n: NodeId, m: Message, x: Effect, h: History)
    requires c.nodes.Keys == c.ids && n in c.ids && m.AppendEntries? && m.term >= c.nodes[n].currentTerm
    requires x == Follow(c.nodes[n], m)
    requires h == Answer(c.hist, TicketKeys(n, c.nodes[n].pending.Keys - x.state.pending.Keys))
    requires Inv(c)
    ensures Inv(Move(c, n, x.state, x.sent, h))
  {
    hide Inv;
    var s := c.nodes[n];
    if m.term > s.currentTerm {
      var e := StepDown(s, m.term);
      StepDownMove(c, n, m.term);
      assert s.pending.Keys - x.state.pending.Keys == s.pending.Keys;
      var c1 := Move(c, n, e.state, e.sent, h);
      FollowMove(c1, n, Some(m.leaderId));
      MoveMove(c, n, e.state, x.state, e.sent, {}, h, h);
      assert e.sent + {} == e.sent;
    } else {
      FollowMove(c, n, Some(m.leaderId));
      assert TicketKeys(n, s.pending.Keys - x.state.pending.Keys) == {};
      assert Answer(c.hist, {}) == c.hist;
    }
  }

  lemma AnswersCompose(h: History, n: NodeId, a: set<(nat, nat)>, b: set<(nat, nat)>, d: set<(nat, nat)>)
    requires d <= b <= a
    ensures Answer(Answer(h, TicketKeys(n, a - b)), TicketKeys(n, b - d)) == Answer(h, TicketKeys(n, a - d))
  {
    assert a - d == (a - b) + (b - d);
    assert TicketKeys(n, a - d) == TicketKeys(n, a - b) + TicketKeys(n, b - d);
    assert h.answered + TicketKeys(n, a - b) + TicketKeys(n, b - d) == h.answered + TicketKeys(n, a - d);
  }

  lemma FollowOnRecord(c: Cluster, n: NodeId, m: Message, s': NodeState)
    requires n in c.ids && Inv(c) && m.AppendEntries? && m.term >= c.nodes[n].currentTerm
    requires s'.role == Follower && s'.votedFor == Follow(c.nodes[n], m).state.votedFor
    requires s'.currentTerm == m.term
    ensures RecordState(c.hist, n, s') == c.hist
  {
    hide Inv;
    if s'.votedFor.Some? {
      CandidateOnRecord(c, n);
    }
  }

  lemma RejectStep(c: Cluster, n: NodeId, p: Packet)
    requires c.nodes.Keys == c.ids && n in c.ids && Sane(c.nodes[n]) && p in c.net && p.dst == n && p.msg.AppendEntries?
    requires !Accepts(c.nodes[n], p.msg)
    requires Inv(c)
    ensures var s, x := c.nodes[n], HandleMessage(c.nodes[n], p.msg);
            Inv(Move(c, n, x.state, x.sent, RecordAnswers(RecordState(c.hist, n, x.state), n, s, x.state)))
  {
    hide Inv, RecordState, PrefixCommitted;
    var s, m := c.nodes[n], p.msg;
    MyId(c, n);
    PacketHolds(c, p);
    var (x, r) := HandleAppendEntries(s, m);
    var reply := {Packet(m.leaderId, r)};
    if m.term < s.currentTerm {
      StayStep(c, n, reply);
      assert {} + reply == reply;
    } else {
      var h := Answer(c.hist, TicketKeys(n, s.pending.Keys - x.state.pending.Keys));
      FollowStep(c, n, m, x, h);
      FollowOnRecord(c, n, m, x.state);
      ThenSend(c, n, x.state, x.sent, h, reply);
    }
  }

  lemma TakeFacts(s: NodeState, m: Message, a: Effect)
    requires Sane(s) && m.AppendEntries? && m.prevLogIndex < |s.log| && a == ApplyCommitted(TakeEntries(s, m))
    ensures a.state.role == s.role && a.state.votedFor == s.votedFor && a.state.currentTerm == s.currentTerm
    ensures a.state.pending.Keys <= s.pending.Keys
  {
    hide Reconcile, Replay;
  }

  lemma AcceptReplyOk(c: Cluster, n: NodeId, m: Message, h: History, answered: set<(NodeId, nat, nat)>, k: nat)
    requires m.AppendEntries? && n in c.ids && n != m.leaderId && c.hist == Answer(RecordAck(h, n, m.term, k), answered)
    ensures PacketOk(c, Packet(m.leaderId, AppendEntriesResponse(m.term, n, true, k)))
  {}

  lemma AcceptStep(c: Cluster, n: NodeId, p: Packet, x: Effect, h: History)
    requires c.nodes.Keys == c.ids && n in c.ids && Sane(c.nodes[n]) && p in c.net && p.dst == n && p.msg.AppendEntries?
    requires Accepts(c.nodes[n], p.msg)
    requires x == HandleMessage(c.nodes[n], p.msg)
    requires h == RecordAck(RecordAnswers(RecordState(c.hist, n, x.state), n, c.nodes[n], x.state), n, p.msg.term,
                            p.msg.prevLogIndex + |p.msg.entries|)
    requires Inv(c)
    ensures Inv(Move(c, n, x.state, x.sent, h))
  {
    hide Inv, RecordState, PacketOk, ApplyCommitted, TakeEntries, TicketKeys;
    var s, m := c.nodes[n], p.msg;
    MyId(c, n);
    NotOwnRequest(c, n, p);
    var e := Follow(s, m);
    var h1 := Answer(c.hist, TicketKeys(n, s.pending.Keys - e.state.pending.Keys));
    FollowStep(c, n, m, e, h1);
    var c1 := Move(c, n, e.state, e.sent, h1);
    var s2 := TakeEntries(e.state, m);
    TakenSane(e.state, m);
    var a := ApplyCommitted(s2);
    TakeFacts(e.state, m, a);
    var k := m.prevLogIndex + |m.entries|;
    var answered := TicketKeys(n, e.state.pending.Keys - a.state.pending.Keys);
    var h2 := Answer(RecordAck(h1, n, m.term, k), answered);
    TakeMove(c1, n, p, s2, a, h2);
    MoveMove(c, n, e.state, a.state, e.sent, a.sent, h1, h2);
    FollowOnRecord(c, n, m, a.state);
    AnswersCompose(c.hist, n, s.pending.Keys, e.state.pending.Keys, a.state.pending.Keys);
    assert h == h2;
    AcceptReplyOk(Move(c, n, a.state, e.sent + a.sent, h2), n, m, h1, answered, k);
    ThenSend(c, n, a.state, e.sent + a.sent, h2, {Packet(m.leaderId, AppendEntriesResponse(m.term, n, true, k))});
  }

  lemma TakenSane(s: NodeState, m: Message)
    requires Sane(s) && m.AppendEntries? && m.prevLogIndex < |s.log|
    ensures var s' := TakeEntries(s, m); s'.commitIndex < |s'.log|
  {}

  lemma NotOwnRequest(c: Cluster, n: NodeId, p: Packet)
    requires Inv(c) && p in c.net && p.dst == n && p.msg.AppendEntries?
    ensures n != p.msg.leaderId
  {
    hide Inv, PrefixCommitted;
    PacketHolds(c, p);
  }

  // ---------------------------------------------------------------- the leader's progress

  /** A committable index is committed by the leader and the replicas it counted. */
  lemma CountedIsCommitted(c: Cluster, n: NodeId, i: nat)
    requires n in c.ids && c.nodes.Keys == c.ids && NodeOk(c, n) && c.nodes[n].role == Leader
    requires 0 < i && Committable(c.nodes[n], i)
    ensures PrefixCommitted(c, c.nodes[n].currentTerm, c.nodes[n].log, i)
  {
    hide LogOk, KeepsAcked, CommitOk, VotesOk, PendingOk;
    var s := c.nodes[n];
    var u, q := s.currentTerm, Replicas(s, i) + {n};
    assert |q| == |Replicas(s, i)| + 1;
    assert Quorum(c.ids, q);
    assert CommittedBy(c, u, i, q);
    assert PrefixCommittedBy(c, u, s.log, i, u, i);
  }

  lemma AdvanceMove(c: Cluster, n: NodeId, x: Effect)
    requires c.nodes.Keys == c.ids && n in c.ids && c.nodes[n].role == Leader && Sane(c.nodes[n])
    requires x == UpdateCommitIndex(c.nodes[n])
    requires Inv(c)
    ensures Inv(Move(c, n, x.state, x.sent,
                     Answer(c.hist, TicketKeys(n, c.nodes[n].pending.Keys - x.state.pending.Keys))))
  {
    hide Inv, ApplyCommitted, Committable, PrefixCommitted, NodeOk;
    var s := c.nodes[n];
    ScanCommitBound(s, |s.log| - 1);
    var i := ScanCommit(s, |s.log| - 1);
    hide ScanCommit;
    NodeHolds(c, n);
    if i == s.commitIndex {
      CommittedNow(c, n);
    } else {
      CountedIsCommitted(c, n, i);
    }
    CommitMove(c, n, i);
    var s1 := s.(commitIndex := i);
    var c1 := Move(c, n, s1, {}, c.hist);
    ApplyMove(c1, n);
    MoveMove(c, n, s1, x.state, {}, x.sent, c.hist,
             Answer(c.hist, TicketKeys(n, s.pending.Keys - x.state.pending.Keys)));
    assert {} + x.sent == x.sent;
  }

  lemma CommittedNow(c: Cluster, n: NodeId)
    requires n in c.nodes && NodeOk(c, n)
    ensures PrefixCommitted(c, c.nodes[n].currentTerm, c.nodes[n].log, c.nodes[n].commitIndex)
  {
    hide PrefixCommitted;
  }

  lemma ProgressRole(c: Cluster, n: NodeId, s: NodeState, f: NodeId, next: map<NodeId, nat>, matched: map<NodeId, nat>)
    requires RoleOk(c, n, s) && s.role == Leader && f in c.ids - {n}
    requires f in next && 1 <= next[f] <= |s.log| && next == s.nextIndex[f := next[f]]
    requires matched == s.matchIndex ||
             (f in matched && matched == s.matchIndex[f := matched[f]] && Acked(c.hist, f, s.currentTerm, matched[f]))
    ensures RoleOk(c, n, s.(nextIndex := next, matchIndex := matched))
  {}

  lemma ProgressMove(c: Cluster, n: NodeId, p: Packet, s': NodeState)
    requires c.nodes.Keys == c.ids && n in c.ids && c.nodes[n].role == Leader && Sane(c.nodes[n])
    requires p in c.net && p.dst == n && p.msg.AppendEntriesResponse? && p.msg.term == c.nodes[n].currentTerm
    requires ResponseInRange(c.nodes[n], p.msg)
    requires var s, m := c.nodes[n], p.msg;
             s' == if m.success then
                     s.(matchIndex := s.matchIndex[m.followerId := m.matchIndex],
                        nextIndex := s.nextIndex[m.followerId := m.matchIndex + 1])
                   else
                     var next := s.nextIndex[m.followerId];
                     s.(nextIndex := s.nextIndex[m.followerId := if next > 1 then next - 1 else next])
    requires Inv(c)
    ensures Inv(Move(c, n, s', {}, c.hist))
  {
    hide TermsOk, Completeness, BallotsOk, TicketsOk, PacketsOk, VotesCover, NodesOk, RoleOk, CommitOk, KeepsAcked,
      LogOk;
    NodeHolds(c, n);
    PacketHolds(c, p);
    ProgressRole(c, n, c.nodes[n], p.msg.followerId, s'.nextIndex, s'.matchIndex);
    assert Answer(c.hist, {}) == c.hist;
    SameRole(c, Move(c, n, s', {}, c.hist), n, s');
    IdleMove(c, n, s', {}, {});
  }

  lemma ResponseStep(c: Cluster, n: NodeId, p: Packet)
    requires c.nodes.Keys == c.ids && n in c.ids && Sane(c.nodes[n])
    requires p in c.net && p.dst == n && p.msg.AppendEntriesResponse? && ResponseInRange(c.nodes[n], p.msg)
    requires Inv(c)
    ensures var s, x := c.nodes[n], HandleAppendEntriesResponse(c.nodes[n], p.msg);
            Inv(Move(c, n, x.state, x.sent, RecordAnswers(RecordState(c.hist, n, x.state), n, s, x.state)))
  {
    hide Inv, RecordState, UpdateCommitIndex, MakeAppendEntries, PacketOk;
    var s, m, x := c.nodes[n], p.msg, HandleAppendEntriesResponse(c.nodes[n], p.msg);
    if m.term > s.currentTerm {
      StepDownStep(c, n, m.term);
    } else if s.role != Leader || m.term < s.currentTerm {
      StayStep(c, n, {});
    } else {
      var s' := if m.success then
                  s.(matchIndex := s.matchIndex[m.followerId := m.matchIndex],
                     nextIndex := s.nextIndex[m.followerId := m.matchIndex + 1])
                else x.state;
      ProgressMove(c, n, p, s');
      var c' := Move(c, n, s', {}, c.hist);
      assert {} + x.sent == x.sent;
      if m.success {
        AdvanceMove(c', n, x);
        var answered := TicketKeys(n, s.pending.Keys - x.state.pending.Keys);
        MoveMove(c, n, s', x.state, {}, x.sent, c.hist, Answer(c.hist, answered));
        QuietRecord(c, n, x.state, x.sent, answered);
      } else {
        RetryOk(c', n, p);
        ThenSend(c, n, s', {}, c.hist, x.sent);
        NoAnswers(RecordState(c.hist, n, s'), n, s, s');
        RecordsIdle(c', n);
      }
    }
  }

  lemma RetryOk(c: Cluster, n: NodeId, p: Packet)
    requires c.nodes.Keys == c.ids && n in c.ids && Inv(c) && c.nodes[n].role == Leader
    requires p in c.net && p.dst == n && p.msg.AppendEntriesResponse?
    requires var f := p.msg.followerId; f in c.nodes[n].nextIndex && 1 <= c.nodes[n].nextIndex[f] <= |c.nodes[n].log|
    ensures PacketOk(c, Packet(p.msg.followerId, MakeAppendEntries(c.nodes[n], p.msg.followerId)))
  {
    hide Inv, NodeOk, MakeAppendEntries;
    NodeHolds(c, n);
    PacketHolds(c, p);
    RequestOk(c, n, p.msg.followerId);
  }

  // ---------------------------------------------------------------- client writes

  lemma WriteMove(c: Cluster, n: NodeId, command: Command, ticket: Option<Ticket>, x: Effect, h: History)
    requires c.nodes.Keys == c.ids && n in c.ids && c.nodes[n].role == Leader && Sane(c.nodes[n])
    requires ticket.Some? ==> ticket.value.command == command
    requires x == AppendCommand(c.nodes[n], command)
    requires var s := c.nodes[n];
             h == Answer(Extend(c.hist, n, s.currentTerm, s.log, LogEntry(s.currentTerm, command), ticket),
                         TicketKeys(n, s.pending.Keys - x.state.pending.Keys))
    requires Inv(c)
    ensures Inv(Move(c, n, x.state, x.sent, h))
    ensures (n, |c.nodes[n].log|, c.nodes[n].currentTerm) !in c.hist.tickets
  {
    hide Inv, UpdateCommitIndex, Heartbeats, Extend;
    var s := c.nodes[n];
    AppendMove(c, n, command, ticket);
    var s1 := AppendEntry(s, command);
    var h1 := Extend(c.hist, n, s.currentTerm, s.log, LogEntry(s.currentTerm, command), ticket);
    var c1 := Move(c, n, s1, {}, h1);
    assert {} + x.sent == x.sent;
    if |s.peers| == 0 {
      AdvanceMove(c1, n, x);
    } else {
      BroadcastMove(c1, n);
      assert TicketKeys(n, s.pending.Keys - x.state.pending.Keys) == {};
      assert Answer(h1, {}) == h1;
    }
    MoveMove(c, n, s1, x.state, {}, x.sent, h1, h);
  }

  lemma LeaderRecord(c: Cluster, n: NodeId, e: LogEntry, s': NodeState)
    requires n in c.ids && Inv(c) && c.nodes[n].role == Leader
    requires var s := c.nodes[n];
             s'.role == Leader && s'.votedFor == s.votedFor && s'.currentTerm == s.currentTerm && s'.log == s.log + [e]
    ensures var s := c.nodes[n];
            RecordState(c.hist, n, s') == Extend(c.hist, n, s.currentTerm, s.log, e, None)
  {
    hide Inv;
    CandidateOnRecord(c, n);
  }

  lemma AppendFacts(s: NodeState, command: Command)
    requires Sane(s) && s.role == Leader
    ensures var s' := AppendCommand(s, command).state;
            && s'.role == Leader && s'.votedFor == s.votedFor && s'.currentTerm == s.currentTerm
            && s'.log == s.log + [LogEntry(s.currentTerm, command)]
            && s'.pending.Keys <= s.pending.Keys
  {
    hide Replay, ScanCommit, Heartbeats;
  }

  lemma CommandStep(c: Cluster, n: NodeId, command: Command)
    requires c.nodes.Keys == c.ids && n in c.ids && Sane(c.nodes[n]) && c.nodes[n].role == Leader
    requires Inv(c)
    ensures var s, x := c.nodes[n], AppendCommand(c.nodes[n], command);
            Inv(Move(c, n, x.state, x.sent, RecordAnswers(RecordState(c.hist, n, x.state), n, s, x.state)))
  {
    hide Inv, RecordState, AppendCommand;
    var s, x := c.nodes[n], AppendCommand(c.nodes[n], command);
    var e := LogEntry(s.currentTerm, command);
    AppendFacts(s, command);
    LeaderRecord(c, n, e, x.state);
    WriteMove(c, n, command, None, x,
              Answer(Extend(c.hist, n, s.currentTerm, s.log, e, None),
                     TicketKeys(n, s.pending.Keys - x.state.pending.Keys)));
  }

  /** The key of a new write is unused, in `pending` and among the answered. */
  lemma FreshKey(c: Cluster, n: NodeId, i: nat, t: nat)
    requires n in c.ids && Inv(c) && (n, i, t) !in c.hist.tickets
    ensures (i, t) !in c.nodes[n].pending && (n, i, t) !in c.hist.answered
  {
    hide TermsOk, Completeness, BallotsOk, PacketsOk, VotesCover, NodesOk, CommitOk, KeepsAcked, LeaderOk, CandidateOk,
      LogOk, VotesOk;
    NodeHolds(c, n);
  }

  lemma FileRole(c: Cluster, n: NodeId, s: NodeState, k: (nat, nat), r: Responder)
    requires RoleOk(c, n, s)
    requires (n, k.0, k.1) in c.hist.tickets && c.hist.tickets[(n, k.0, k.1)].responder == r
    requires (n, k.0, k.1) !in c.hist.answered
    ensures RoleOk(c, n, s.(pending := s.pending[k := r]))
  {}

  lemma FileMove(c: Cluster, n: NodeId, k: (nat, nat), r: Responder)
    requires n in c.ids && Inv(c)
    requires (n, k.0, k.1) in c.hist.tickets && c.hist.tickets[(n, k.0, k.1)].responder == r
    requires (n, k.0, k.1) !in c.hist.answered
    ensures Inv(Move(c, n, c.nodes[n].(pending := c.nodes[n].pending[k := r]), {}, c.hist))
  {
    hide TermsOk, Completeness, BallotsOk, TicketsOk, PacketsOk, VotesCover, NodesOk, RoleOk, CommitOk, KeepsAcked,
      LogOk;
    NodeHolds(c, n);
    var s' := c.nodes[n].(pending := c.nodes[n].pending[k := r]);
    FileRole(c, n, c.nodes[n], k, r);
    assert Answer(c.hist, {}) == c.hist;
    SameRole(c, Move(c, n, s', {}, c.hist), n, s');
    IdleMove(c, n, s', {}, {});
  }

  /** A request answered on the spot was never pending. */
  lemma AnswerMove(c: Cluster, n: NodeId, k: (nat, nat), reply: Packet)
    requires n in c.ids && Inv(c) && reply.msg.ClientResponse?
    requires (n, k.0, k.1) in c.hist.tickets && k !in c.nodes[n].pending
    ensures Inv(Move(c, n, c.nodes[n], {reply}, Answer(c.hist, {(n, k.0, k.1)})))
  {
    hide TermsOk, Completeness, BallotsOk, TicketsOk, PacketsOk, VotesCover, NodesOk, CommitOk, KeepsAcked, LogOk;
    NodeHolds(c, n);
    var c' := Move(c, n, c.nodes[n], {reply}, Answer(c.hist, {(n, k.0, k.1)}));
    AnswerRole(c, c', n, c.nodes[n], k);
    hide RoleOk;
    IdleMove(c, n, c.nodes[n], {reply}, {(n, k.0, k.1)});
  }

  lemma AnswerRole(c: Cluster, c': Cluster, n: NodeId, s: NodeState, k: (nat, nat))
    requires RoleOk(c, n, s) && k !in s.pending
    requires c'.ids == c.ids && c'.hist == Answer(c.hist, {(n, k.0, k.1)})
    ensures RoleOk(c', n, s)
  {}

  lemma RequestStep(c: Cluster, n: NodeId, m: Message, x: Effect, h: History)
    requires c.nodes.Keys == c.ids && n in c.ids && Sane(c.nodes[n]) && c.nodes[n].role == Leader && m.ClientRequest?
    requires x == SubmitWrite(c.nodes[n], m.command, RaftClient(m.clientId, m.requestId))
    requires h == RecordTicket(RecordAnswers(RecordState(c.hist, n, x.state), n, c.nodes[n], x.state), n, c.nodes[n], m,
                               x.state)
    requires Inv(c)
    ensures Inv(Move(c, n, x.state, x.sent, h))
  {
    hide Inv, RecordState, AppendCommand;
    var s, a := c.nodes[n], AppendCommand(c.nodes[n], m.command);
    var r := RaftClient(m.clientId, m.requestId);
    var ticket := Ticket(r, m.command);
    var u, i, e := s.currentTerm, |s.log|, LogEntry(s.currentTerm, m.command);
    AppendFacts(s, m.command);
    LeaderRecord(c, n, e, x.state);
    var answered := TicketKeys(n, s.pending.Keys - a.state.pending.Keys);
    var h1 := Answer(Extend(c.hist, n, u, s.log, e, Some(ticket)), answered);
    WriteMove(c, n, m.command, Some(ticket), a, h1);
    FreshKey(c, n, i, u);
    var c1 := Move(c, n, a.state, a.sent, h1);
    assert s.pending.Keys - x.state.pending.Keys == s.pending.Keys - a.state.pending.Keys;
    if a.state.lastApplied >= i {
      var reply := Reply(r, true, None, Applied(i), u);
      AnswerMove(c1, n, (i, u), reply);
      MoveMove(c, n, a.state, a.state, a.sent, {reply}, h1, h);
    } else {
      FileMove(c1, n, (i, u), r);
      MoveMove(c, n, a.state, x.state, a.sent, {}, h1, h);
      assert a.sent + {} == a.sent;
    }
  }

  // ---------------------------------------------------------------- every step

  lemma SubmitStep(c: Cluster, p: Packet)
    requires Inv(c) && IsClientMessage(p.msg)
    ensures Inv(c.(net := c.net + {p}))
  {
    hide TermsOk, Completeness, BallotsOk, TicketsOk, VotesCover, NodesOk;
    var c' := c.(net := c.net + {p});
    if c.ids == {} {
      NobodyHome(c, p);
    } else {
      var n :| n in c.ids;
      StayMove(c, n);
      SendMove(c, n, {p});
      assert c' == Move(c, n, c.nodes[n], {p}, c.hist);
    }
  }

  /** In a cluster without nodes nobody has ever led, and packets promise nothing. */
  lemma NobodyHome(c: Cluster, p: Packet)
    requires Inv(c) && IsClientMessage(p.msg) && c.ids == {}
    ensures Inv(c.(net := c.net + {p}))
  {
    var c' := c.(net := c.net + {p});
    hide LogOk, PrefixCommitted, Extends;
    assert c.hist.leaderOf.Keys == {};
    assert forall t :: t in c.hist.termLog ==> t == 0;
  }

  lemma LeaderBeat(c: Cluster, n: NodeId)
    requires c.nodes.Keys == c.ids && n in c.ids && Sane(c.nodes[n]) && c.nodes[n].role == Leader
    requires Inv(c)
    ensures var s := c.nodes[n];
            Inv(Move(c, n, s, Heartbeats(s), RecordAnswers(RecordState(c.hist, n, s), n, s, s)))
  {
    hide Inv, Heartbeats, RecordState, NodeOk, PacketOk;
    NodeHolds(c, n);
    HeartbeatsOk(c, n);
    StayStep(c, n, Heartbeats(c.nodes[n]));
  }

  lemma ElectEvent(c: Cluster, n: NodeId)
    requires c.nodes.Keys == c.ids && n in c.ids && Sane(c.nodes[n])
    requires Inv(c)
    ensures var s, x := c.nodes[n], StartElection(c.nodes[n]);
            Inv(Move(c, n, x.state, x.sent, RecordAnswers(RecordState(c.hist, n, x.state), n, s, x.state)))
  {
    hide Inv, RecordState, Heartbeats, Majority, RecordAnswers;
    var s, x := c.nodes[n], StartElection(c.nodes[n]);
    ElectionStep(c, n);
    NoAnswers(RecordState(c.hist, n, x.state), n, s, x.state);
  }

  lemma RebootEvent(c: Cluster, n: NodeId)
    requires c.nodes.Keys == c.ids && n in c.ids
    requires Inv(c)
    ensures var s := Restart(c.nodes[n]); Inv(Move(c, n, s, {}, RecordState(c.hist, n, s)))
  {
    hide Inv;
    RestartMove(c, n);
    RecordsIdle(Move(c, n, Restart(c.nodes[n]), {}, c.hist), n);
  }

  lemma DeliverEvent(c: Cluster, n: NodeId, p: Packet, x: Effect, h: History)
    requires c.nodes.Keys == c.ids && n in c.ids && p in c.net && p.dst == n && CanHandle(c.nodes[n], p.msg)
    requires x == HandleMessage(c.nodes[n], p.msg) && h == Record(c.hist, n, c.nodes[n], Deliver(p), x.state)
    requires Inv(c)
    ensures Inv(Move(c, n, x.state, x.sent, h))
  {
    hide Inv, RecordState, RecordAnswers, HandleRequestVote, HandleVoteResponse, HandleAppendEntries, StartElection,
      HandleAppendEntriesResponse, AppendCommand, SubmitWrite, RecordTicket, RecordAck, Accepts;
    var s := c.nodes[n];
    match p.msg
    case RequestVote(_, _, _, _) => RequestVoteStep(c, n, p);
    case RequestVoteResponse(_, _, _) => VoteResponseStep(c, n, p);
    case AppendEntries(_, _, _, _, _, _) =>
      if Accepts(s, p.msg) {
        AcceptStep(c, n, p, x, h);
      } else {
        RejectStep(c, n, p);
      }
    case AppendEntriesResponse(_, _, _, _) => ResponseStep(c, n, p);
    case ClientCommand(command) =>
      if s.role == Leader {
        CommandStep(c, n, command);
      } else {
        StayStep(c, n, x.sent);
      }
    case ClientRequest(_, _, _) =>
      if s.role == Leader {
        RequestStep(c, n, p.msg, x, h);
      } else {
        RefuseStep(c, n, p.msg, x, h);
      }
    case ClientQuery(_, _, _) => StayStep(c, n, x.sent);
    case StatusQuery(_, _) => StayStep(c, n, x.sent);
    case ClientResponse(_, _, _, _, _) => StayStep(c, n, x.sent);
    case Timeout => ElectEvent(c, n);
  }

  lemma RefuseStep(c: Cluster, n: NodeId, m: Message, x: Effect, h: History)
    requires c.nodes.Keys == c.ids && n in c.ids && Sane(c.nodes[n]) && c.nodes[n].role != Leader && m.ClientRequest?
    requires x == SubmitWrite(c.nodes[n], m.command, RaftClient(m.clientId, m.requestId))
    requires h == RecordTicket(RecordAnswers(RecordState(c.hist, n, x.state), n, c.nodes[n], x.state), n, c.nodes[n], m,
                               x.state)
    requires Inv(c)
    ensures Inv(Move(c, n, x.state, x.sent, h))
  {
    hide Inv, RecordState, RecordAnswers;
    StayStep(c, n, x.sent);
  }

  lemma StepPreserves(c: Cluster, e: Event, c': Cluster)
    requires c.nodes.Keys == c.ids && StepBy(c, e, c')
    requires Inv(c)
    ensures Inv(c')
  {
    hide Inv, RecordState, RecordAnswers, HandleMessage, StartElection, Heartbeats, RecordTicket, RecordAck, CanHandle;
    var n := Target(e);
    match e
    case Submit(p) => SubmitStep(c, p);
    case Deliver(p) =>
      var x := HandleMessage(c.nodes[n], p.msg);
      DeliverEvent(c, n, p, x, Record(c.hist, n, c.nodes[n], e, x.state));
    case Elect(_) => ElectEvent(c, n);
    case Heartbeat(_) =>
      if c.nodes[n].role == Leader {
        LeaderBeat(c, n);
      } else {
        StayStep(c, n, {});
      }
    case Reboot(_) => RebootEvent(c, n);
  }
}
