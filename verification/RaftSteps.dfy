/** Each elementary move of a node keeps the invariant. */
module RaftSteps {
  import opened Commands
  import opened RaftTypes
  import opened RaftHandlers
  import opened RaftCluster
  import opened RaftInvariants
  import opened RaftFrames

  function Move(c: Cluster, n: NodeId, s: NodeState, sent: set<Packet>, h: History): Cluster {
    c.(nodes := c.nodes[n := s], net := c.net + sent, hist := h)
  }

  // ---------------------------------------------------------------- moves that leave log and history alone

  ghost predicate Quiet(c: Cluster, n: NodeId, s: NodeState, answered: set<(NodeId, nat, nat)>)
    requires n in c.nodes
  {
    && s.log == c.nodes[n].log && c.nodes[n].currentTerm <= s.currentTerm
    && (s.role == Candidate && s.currentTerm == c.nodes[n].currentTerm ==> c.nodes[n].role == Candidate)
    && answered <= c.hist.tickets.Keys
    && (forall k :: k in answered ==> k.0 == n)
  }

  function Answer(h: History, answered: set<(NodeId, nat, nat)>): History {
    h.(answered := h.answered + answered)
  }

  lemma QuietAdvances(c: Cluster, n: NodeId, s: NodeState, sent: set<Packet>, answered: set<(NodeId, nat, nat)>)
    requires n in c.ids && c.nodes.Keys == c.ids && Quiet(c, n, s, answered)
    ensures Advances(c, Move(c, n, s, sent, Answer(c.hist, answered)), n)
  {}

  lemma QuietBallots(c: Cluster, n: NodeId, s: NodeState, sent: set<Packet>, answered: set<(NodeId, nat, nat)>)
    requires n in c.ids && c.nodes.Keys == c.ids && Quiet(c, n, s, answered)
    requires BallotsOk(c) && TicketsOk(c.hist)
    ensures BallotsOk(Move(c, n, s, sent, Answer(c.hist, answered)))
    ensures TicketsOk(Answer(c.hist, answered))
  {}

  lemma QuietNodeOk(c: Cluster, n: NodeId, s: NodeState, sent: set<Packet>, answered: set<(NodeId, nat, nat)>)
    requires n in c.ids && c.nodes.Keys == c.ids && Quiet(c, n, s, answered) && NodeOk(c, n) && BallotsOk(c)
    requires var c' := Move(c, n, s, sent, Answer(c.hist, answered));
             RoleOk(c', n, s) && CommitOk(c', s)
    ensures NodeOk(Move(c, n, s, sent, Answer(c.hist, answered)), n)
  {
    hide RoleOk, CommitOk, BallotsOk, HistoryGrows;
    var c' := Move(c, n, s, sent, Answer(c.hist, answered));
    QuietAdvances(c, n, s, sent, answered);
    LogOkPersists(c.hist.termLog, c'.hist.termLog, s.log, c.nodes[n].currentTerm, s.currentTerm);
    KeepsAckedPersists(c, c', n, n, s.log);
  }

  lemma QuietMove(c: Cluster, n: NodeId, s: NodeState, sent: set<Packet>, answered: set<(NodeId, nat, nat)>)
    requires Inv(c) && n in c.ids && Quiet(c, n, s, answered)
    requires var c' := Move(c, n, s, sent, Answer(c.hist, answered));
             && RoleOk(c', n, s) && CommitOk(c', s)
             && forall p :: p in sent ==> PacketOk(c', p)
    ensures Inv(Move(c, n, s, sent, Answer(c.hist, answered)))
  {
    hide NodeOk, RoleOk, CommitOk, TermsOk, Completeness, BallotsOk, TicketsOk, PacketOk, HistoryGrows, PacketsOk,
      VotesCover;
    var c' := Move(c, n, s, sent, Answer(c.hist, answered));
    QuietAdvances(c, n, s, sent, answered);
    QuietBallots(c, n, s, sent, answered);
    SameTerms(c, c', n);
    QuietNodeOk(c, n, s, sent, answered);
    Reassemble(c, c', n);
  }

  /** A quiet move that does not touch what is committed or applied. */
  lemma IdleMove(c: Cluster, n: NodeId, s: NodeState, sent: set<Packet>, answered: set<(NodeId, nat, nat)>)
    requires Inv(c) && n in c.ids && Quiet(c, n, s, answered)
    requires var c' := Move(c, n, s, sent, Answer(c.hist, answered));
             RoleOk(c', n, s) && forall p :: p in sent ==> PacketOk(c', p)
    requires var s0 := c.nodes[n];
             s.commitIndex == s0.commitIndex && s.lastApplied == s0.lastApplied && s.db == s0.db
    ensures Inv(Move(c, n, s, sent, Answer(c.hist, answered)))
  {
    hide RoleOk, CommitOk, TermsOk, Completeness, BallotsOk, TicketsOk, PacketOk, HistoryGrows, PacketsOk, VotesCover,
      LogOk, KeepsAcked;
    QuietAdvances(c, n, s, sent, answered);
    assert NodeOk(c, n);
    CommitOkPersists(c, Move(c, n, s, sent, Answer(c.hist, answered)), n, c.nodes[n], s);
    QuietMove(c, n, s, sent, answered);
  }

  lemma SendMove(c: Cluster, n: NodeId, sent: set<Packet>)
    requires Inv(c) && n in c.ids && forall p :: p in sent ==> PacketOk(c, p)
    ensures Inv(Move(c, n, c.nodes[n], sent, c.hist))
  {
    hide RoleOk, CommitOk, TermsOk, Completeness, BallotsOk, TicketsOk, PacketsOk, VotesCover, LogOk, KeepsAcked,
      HistoryGrows, PacketOk;
    var c' := Move(c, n, c.nodes[n], sent, Answer(c.hist, {}));
    assert Answer(c.hist, {}) == c.hist;
    assert c' == Move(c, n, c.nodes[n], sent, c.hist);
    QuietAdvances(c, n, c.nodes[n], sent, {});
    assert RoleOk(c', n, c.nodes[n]) by {
      assert NodeOk(c, n);
      SameRole(c, c', n, c.nodes[n]);
    }
    forall p | p in sent ensures PacketOk(c', p) {
      PacketOkPersists(c, c', n, p);
    }
    IdleMove(c, n, c.nodes[n], sent, {});
  }

  lemma SameRole(c: Cluster, c': Cluster, n: NodeId, s: NodeState)
    requires RoleOk(c, n, s) && c'.ids == c.ids && c'.hist == c.hist
    ensures RoleOk(c', n, s)
  {}

  lemma StepDownRole(c: Cluster, c': Cluster, n: NodeId, s: NodeState, term: nat)
    requires RoleOk(c, n, s) && term > s.currentTerm
    requires c'.ids == c.ids && c'.hist.votes == c.hist.votes
    ensures RoleOk(c', n, StepDown(s, term).state)
  {}

  lemma StepDownMove(c: Cluster, n: NodeId, term: nat)
    requires Inv(c) && n in c.ids && term > c.nodes[n].currentTerm
    ensures var s := c.nodes[n];
            Inv(Move(c, n, StepDown(s, term).state, StepDown(s, term).sent,
                     Answer(c.hist, TicketKeys(n, s.pending.Keys))))
  {
    hide CommitOk, TermsOk, Completeness, BallotsOk, TicketsOk, PacketsOk, VotesCover, LogOk, KeepsAcked, NodesOk,
      RoleOk;
    NodeHolds(c, n);
    var s := c.nodes[n];
    var c' := Move(c, n, StepDown(s, term).state, StepDown(s, term).sent,
                   Answer(c.hist, TicketKeys(n, s.pending.Keys)));
    PendingFiled(c, n);
    StepDownRole(c, c', n, s, term);
    IdleMove(c, n, StepDown(s, term).state, StepDown(s, term).sent, TicketKeys(n, s.pending.Keys));
  }

  lemma NodeHolds(c: Cluster, n: NodeId)
    requires Inv(c) && n in c.ids
    ensures NodeOk(c, n)
  {
    hide NodeOk;
  }

  lemma PacketHolds(c: Cluster, p: Packet)
    requires Inv(c) && p in c.net
    ensures PacketOk(c, p)
  {
    hide PacketOk;
  }

  /** Requests waiting at a node are filed under its own name. */
  lemma PendingFiled(c: Cluster, n: NodeId)
    requires n in c.nodes && RoleOk(c, n, c.nodes[n])
    ensures TicketKeys(n, c.nodes[n].pending.Keys) <= c.hist.tickets.Keys
    ensures TicketKeys(n, c.nodes[n].pending.Keys) !! c.hist.answered
  {}

  lemma FollowMove(c: Cluster, n: NodeId, leader: Option<NodeId>)
    requires Inv(c) && n in c.ids
    ensures Inv(Move(c, n, c.nodes[n].(role := Follower, leaderId := leader), {}, c.hist))
  {
    hide CommitOk, TermsOk, Completeness, BallotsOk, TicketsOk, PacketsOk, VotesCover, LogOk, KeepsAcked, NodesOk;
    NodeHolds(c, n);
    assert Answer(c.hist, {}) == c.hist;
    IdleMove(c, n, c.nodes[n].(role := Follower, leaderId := leader), {}, {});
  }

  lemma RestartMove(c: Cluster, n: NodeId)
    requires Inv(c) && n in c.ids
    ensures Inv(Move(c, n, Restart(c.nodes[n]), {}, c.hist))
  {
    hide CommitOk, TermsOk, Completeness, BallotsOk, TicketsOk, PacketsOk, VotesCover, LogOk, KeepsAcked, NodesOk;
    NodeHolds(c, n);
    assert Answer(c.hist, {}) == c.hist;
    IdleMove(c, n, Restart(c.nodes[n]), {}, {});
  }

  lemma CollectVoteMove(c: Cluster, n: NodeId, p: Packet)
    requires Inv(c) && n in c.ids && c.nodes[n].role == Candidate
    requires p in c.net && p.dst == n && p.msg.RequestVoteResponse? && p.msg.voteGranted
    requires p.msg.term == c.nodes[n].currentTerm
    ensures Inv(Move(c, n, c.nodes[n].(votesReceived := c.nodes[n].votesReceived + {p.msg.voterId}), {}, c.hist))
  {
    hide CommitOk, TermsOk, Completeness, BallotsOk, TicketsOk, PacketsOk, VotesCover, LogOk, KeepsAcked, NodesOk;
    NodeHolds(c, n);
    PacketHolds(c, p);
    assert Answer(c.hist, {}) == c.hist;
    IdleMove(c, n, c.nodes[n].(votesReceived := c.nodes[n].votesReceived + {p.msg.voterId}), {}, {});
  }

  // ---------------------------------------------------------------- commitment and application

  lemma ReplayConcat(db: map<Key, Value>, a: seq<LogEntry>, b: seq<LogEntry>)
    ensures Replay(db, a + b) == Replay(Replay(db, a), b)
  {
    if |b| == 0 {
      assert a + b == a;
    } else {
      assert (a + b)[..|a + b| - 1] == a + b[..|b| - 1];
      ReplayConcat(db, a, b[..|b| - 1]);
    }
  }

  /** Committing and applying change neither the role nor the ballot; answered requests leave `pending`. */
  lemma SameRoleUpTo(c: Cluster, c': Cluster, n: NodeId, s: NodeState, s': NodeState)
    requires RoleOk(c, n, s) && c'.ids == c.ids && s'.pending.Keys <= s.pending.Keys
    requires c'.hist == Answer(c.hist, TicketKeys(n, s.pending.Keys - s'.pending.Keys))
    requires forall k :: k in s'.pending ==> s'.pending[k] == s.pending[k]
    requires s' == s.(commitIndex := s'.commitIndex, lastApplied := s'.lastApplied, db := s'.db, pending := s'.pending)
    ensures RoleOk(c', n, s')
  {}

  lemma CommitMove(c: Cluster, n: NodeId, i: nat)
    requires Inv(c) && n in c.ids && i < |c.nodes[n].log|
    requires PrefixCommitted(c, c.nodes[n].currentTerm, c.nodes[n].log, i)
    ensures Inv(Move(c, n, c.nodes[n].(commitIndex := i), {}, c.hist))
  {
    hide TermsOk, Completeness, BallotsOk, TicketsOk, PacketsOk, VotesCover, LogOk, KeepsAcked, PrefixCommitted,
      HistoryGrows, Replay, NodesOk;
    NodeHolds(c, n);
    assert Answer(c.hist, {}) == c.hist;
    var s, s' := c.nodes[n], c.nodes[n].(commitIndex := i);
    var c' := Move(c, n, s', {}, c.hist);
    SameRoleUpTo(c, c', n, s, s');
    hide RoleOk;
    QuietAdvances(c, n, s', {}, {});
    PrefixCommittedPersists(c, c', n, s.currentTerm, s.currentTerm, s.log, s.log, i);
    PrefixCommittedPersists(c, c', n, s.currentTerm, s.currentTerm, s.log, s.log, s.lastApplied);
    QuietMove(c, n, s', {}, {});
  }

  lemma ApplyMove(c: Cluster, n: NodeId)
    requires Inv(c) && n in c.ids && c.nodes[n].commitIndex < |c.nodes[n].log|
    ensures var s, e := c.nodes[n], ApplyCommitted(c.nodes[n]);
            Inv(Move(c, n, e.state, e.sent, Answer(c.hist, TicketKeys(n, s.pending.Keys - e.state.pending.Keys))))
  {
    hide TermsOk, Completeness, BallotsOk, TicketsOk, PacketsOk, VotesCover, LogOk, KeepsAcked, PrefixCommitted,
      HistoryGrows, Replay, NodesOk, RoleOk;
    NodeHolds(c, n);
    var s, e := c.nodes[n], ApplyCommitted(c.nodes[n]);
    PendingFiled(c, n);
    var answered := TicketKeys(n, s.pending.Keys - e.state.pending.Keys);
    var c' := Move(c, n, e.state, e.sent, Answer(c.hist, answered));
    SameRoleUpTo(c, c', n, s, e.state);
    QuietAdvances(c, n, e.state, e.sent, answered);
    PrefixCommittedPersists(c, c', n, s.currentTerm, s.currentTerm, s.log, s.log, s.commitIndex);
    PrefixCommittedPersists(c, c', n, s.currentTerm, s.currentTerm, s.log, s.log, s.lastApplied);
    if s.lastApplied < s.commitIndex {
      ReplayConcat(map[], s.log[1..s.lastApplied + 1], s.log[s.lastApplied + 1..s.commitIndex + 1]);
      assert s.log[1..s.lastApplied + 1] + s.log[s.lastApplied + 1..s.commitIndex + 1] == s.log[1..s.commitIndex + 1];
    }
    QuietMove(c, n, e.state, e.sent, answered);
  }
}
