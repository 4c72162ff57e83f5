/** Voting and winning: the moves that extend the ballot history. */
module RaftBallots {
  import opened Commands
  import opened RaftTypes
  import opened RaftHandlers
  import opened RaftCluster
  import opened RaftInvariants
  import opened RaftFrames
  import opened RaftSteps

  function CastVote(h: History, n: NodeId, u: nat, cand: NodeId): History {
    h.(votes := h.votes[(n, u) := cand])
  }

  lemma VoteAdvances(c: Cluster, n: NodeId, s: NodeState, cand: NodeId)
    requires n in c.ids && c.nodes.Keys == c.ids && (n, s.currentTerm) !in c.hist.votes
    requires s.log == c.nodes[n].log && c.nodes[n].currentTerm <= s.currentTerm
    requires s.role == Candidate && s.currentTerm == c.nodes[n].currentTerm ==> c.nodes[n].role == Candidate
    ensures Advances(c, Move(c, n, s, {}, CastVote(c.hist, n, s.currentTerm, cand)), n)
  {}

  lemma VoteBallots(c: Cluster, n: NodeId, s: NodeState, cand: NodeId)
    requires n in c.ids && c.nodes.Keys == c.ids && BallotsOk(c) && cand in c.ids
    requires c.nodes[n].currentTerm <= s.currentTerm
    requires cand != n ==> s.currentTerm <= c.nodes[cand].currentTerm
    ensures BallotsOk(Move(c, n, s, {}, CastVote(c.hist, n, s.currentTerm, cand)))
  {}

  lemma VoteTickets(h: History, n: NodeId, u: nat, cand: NodeId)
    requires TicketsOk(h)
    ensures TicketsOk(CastVote(h, n, u, cand))
  {}

  lemma VoteNodeOk(c: Cluster, c': Cluster, n: NodeId)
    requires Advances(c, c', n) && BallotsOk(c) && NodeOk(c, n)
    requires c'.hist.acks == c.hist.acks
    requires var s, s' := c.nodes[n], c'.nodes[n];
             && s'.log == s.log && s'.commitIndex == s.commitIndex && s'.lastApplied == s.lastApplied && s'.db == s.db
    requires RoleOk(c', n, c'.nodes[n])
    ensures NodeOk(c', n)
  {
    hide RoleOk, CommitOk, BallotsOk, HistoryGrows;
    var s, s' := c.nodes[n], c'.nodes[n];
    assert forall t, i :: Acked(c'.hist, n, t, i) ==> Acked(c.hist, n, t, i);
    LogsPersist(c, c', n);
    LogOkPersists(c.hist.termLog, c'.hist.termLog, s.log, s.currentTerm, s'.currentTerm);
    KeepsAckedPersists(c, c', n, n, s.log);
    CommitOkPersists(c, c', n, s, s');
  }

  lemma LogsPersist(c: Cluster, c': Cluster, n: NodeId)
    requires Advances(c, c', n)
    ensures forall t :: t in c.hist.termLog ==> t in c'.hist.termLog && c.hist.termLog[t] <= c'.hist.termLog[t]
  {}

  /** Common end of both voting moves. */
  lemma VoteMove(c: Cluster, n: NodeId, s: NodeState, cand: NodeId)
    requires c.nodes.Keys == c.ids && n in c.ids && cand in c.ids && (n, s.currentTerm) !in c.hist.votes
    requires var s0 := c.nodes[n];
             && s.log == s0.log && s.commitIndex == s0.commitIndex && s.lastApplied == s0.lastApplied && s.db == s0.db
             && s0.currentTerm <= s.currentTerm
             && (s.role == Candidate && s.currentTerm == s0.currentTerm ==> s0.role == Candidate)
    requires cand != n ==> s.currentTerm <= c.nodes[cand].currentTerm
    requires var c' := Move(c, n, s, {}, CastVote(c.hist, n, s.currentTerm, cand));
             RoleOk(c', n, s) && VoteCovers(c', n, s.currentTerm)
    requires Inv(c)
    ensures Inv(Move(c, n, s, {}, CastVote(c.hist, n, s.currentTerm, cand)))
  {
    hide NodeOk, RoleOk, CommitOk, TermsOk, Completeness, BallotsOk, TicketsOk, PacketOk, HistoryGrows, PacketsOk,
      VotesCover, NodesOk, VoteCovers;
    var c' := Move(c, n, s, {}, CastVote(c.hist, n, s.currentTerm, cand));
    NodeHolds(c, n);
    VoteAdvances(c, n, s, cand);
    VoteBallots(c, n, s, cand);
    VoteTickets(c.hist, n, s.currentTerm, cand);
    VoteNodeOk(c, c', n);
    SameTerms(c, c', n);
    Reassemble(c, c', n);
  }

  // ---------------------------------------------------------------- standing for election

  lemma NotYetLeader(c: Cluster, n: NodeId, u: nat)
    requires n in c.ids && c.nodes.Keys == c.ids && TermsOk(c) && BallotsOk(c) && u > c.nodes[n].currentTerm
    ensures u in c.hist.leaderOf ==> c.hist.leaderOf[u] != n
  {
    if u in c.hist.leaderOf {
      var q :| Elected(c, u, q);
      SubsetCard({}, q);
      var x :| x in q;
      assert c.hist.votes[(x, u)] == c.hist.leaderOf[u];
    }
  }

  lemma CandidacyRole(c: Cluster, c': Cluster, n: NodeId, s: NodeState)
    requires RoleOk(c, n, s) && n in c.ids && LogOk(c.hist.termLog, s.log, s.currentTerm)
    requires var u := s.currentTerm + 1;
             && (u in c.hist.leaderOf ==> c.hist.leaderOf[u] != n)
             && c'.ids == c.ids && c'.hist == CastVote(c.hist, n, u, n)
    ensures RoleOk(c', n, BecomeCandidate(s))
  {}

  lemma CandidacyCovers(c: Cluster, c': Cluster, n: NodeId)
    requires Advances(c, c', n) && BallotsOk(c) && KeepsAcked(c, n, c.nodes[n].log)
    requires c'.nodes[n].log == c.nodes[n].log && c'.hist.acks == c.hist.acks
    requires var u := c'.nodes[n].currentTerm; (n, u) in c'.hist.votes && c'.hist.votes[(n, u)] == n
    ensures VoteCovers(c', n, c'.nodes[n].currentTerm)
  {
    hide BallotsOk, HistoryGrows, Safe, KeepsAcked;
    assert forall t, i :: Acked(c'.hist, n, t, i) ==> Acked(c.hist, n, t, i);
    KeepsAckedPersists(c, c', n, n, c.nodes[n].log);
    KeepsAckedCovers(c', n);
  }

  lemma KeepsAckedCovers(c: Cluster, n: NodeId)
    requires n in c.nodes && KeepsAcked(c, n, c.nodes[n].log)
    requires var u := c.nodes[n].currentTerm; (n, u) in c.hist.votes && c.hist.votes[(n, u)] == n
    ensures VoteCovers(c, n, c.nodes[n].currentTerm)
  {
    hide Safe;
  }

  lemma CandidacyMove(c: Cluster, n: NodeId)
    requires Inv(c) && n in c.ids
    ensures var u := c.nodes[n].currentTerm + 1;
            Inv(Move(c, n, BecomeCandidate(c.nodes[n]), {}, CastVote(c.hist, n, u, n)))
  {
    hide RoleOk, CommitOk, TermsOk, Completeness, BallotsOk, TicketsOk, HistoryGrows, PacketsOk, VotesCover, NodesOk,
      VoteCovers, LogOk, KeepsAcked;
    var s := c.nodes[n];
    var s', u := BecomeCandidate(s), s.currentTerm + 1;
    var c' := Move(c, n, s', {}, CastVote(c.hist, n, u, n));
    NodeHolds(c, n);
    NotYetLeader(c, n, u);
    FutureVote(c, n, s, u);
    VoteAdvances(c, n, s', n);
    CandidacyRole(c, c', n, s);
    CandidacyCovers(c, c', n);
    VoteMove(c, n, s', n);
  }

  lemma FutureVote(c: Cluster, n: NodeId, s: NodeState, u: nat)
    requires RoleOk(c, n, s) && (u > s.currentTerm || (u == s.currentTerm && s.votedFor.None?))
    ensures (n, u) !in c.hist.votes
  {}

  // ---------------------------------------------------------------- granting a vote

  /** The up-to-date test carries safety from the voter's log over to the candidate's. */
  lemma UpToDateCovers(c: Cluster, mine: seq<LogEntry>, theirs: seq<LogEntry>, b: nat, b': nat, t: nat, i: nat)
    requires TermsOk(c) && Completeness(c)
    requires LogOk(c.hist.termLog, mine, b) && LogOk(c.hist.termLog, theirs, b')
    requires OwnEntry(c.hist, t, i) && Safe(c, t, i, mine)
    requires UpToDate(|theirs| - 1, theirs[|theirs| - 1].term, mine)
    ensures Safe(c, t, i, theirs)
  {
    hide Dead, Elected;
    if !Dead(c, t, i) {
      var T := c.hist.termLog;
      var last, last' := |mine| - 1, |theirs| - 1;
      var lt, v := mine[last].term, theirs[last'].term;
      assert mine[i] == mine[..i + 1][i] == T[t][..i + 1][i];
      assert t <= lt;
      assert Backed(T, mine, last) && Backed(T, theirs, last');
      assert theirs == T[v][..|theirs|];
      if v == lt {
        assert mine == T[v][..|mine|];
        assert theirs[..i + 1] == mine[..i + 1];
      } else {
        assert Safe(c, t, i, T[v]);
        assert T[v][i] == T[v][..i + 1][i] == T[t][i];
        assert LogOk(T, T[v], v);
        assert theirs[last'] == T[v][last'];
        assert i < last';
        assert theirs[..i + 1] == T[v][..i + 1];
      }
    }
  }

  lemma GrantCovers(c: Cluster, c': Cluster, n: NodeId, cand: NodeId)
    requires c.nodes.Keys == c.ids && n in c.ids && cand in c.ids && n != cand && |c.nodes[n].log| >= 1
    requires var u := c.nodes[n].currentTerm;
             && (n, u) !in c.hist.votes
             && c' == Move(c, n, c.nodes[n].(votedFor := Some(cand)), {}, CastVote(c.hist, n, u, cand))
             && (c.nodes[cand].role == Candidate && c.nodes[cand].currentTerm == u ==>
                   var log := c.nodes[cand].log;
                   |log| >= 1 && UpToDate(|log| - 1, log[|log| - 1].term, c.nodes[n].log))
    requires TermsOk(c) && Completeness(c) && NodeOk(c, n) && NodeOk(c, cand) && Advances(c, c', n)
    ensures VoteCovers(c', n, c.nodes[n].currentTerm)
  {
    hide RoleOk, CommitOk, TermsOk, Completeness, LogOk, Safe, UpToDate, Advances;
    var u := c.nodes[n].currentTerm;
    var s := c'.nodes[cand];
    if s.role == Candidate && s.currentTerm == u {
      forall t: nat, i: nat | t < u && OwnEntry(c'.hist, t, i)
          && Acked(c'.hist, n, t, i) ensures Safe(c', t, i, s.log) {
        UpToDateCovers(c, c.nodes[n].log, s.log, u, u, t, i);
        SafePersists(c, c', n, t, i, s.log);
      }
    }
  }

  lemma GrantRole(c: Cluster, c': Cluster, n: NodeId, s: NodeState, cand: NodeId)
    requires RoleOk(c, n, s) && s.votedFor.None?
    requires c'.ids == c.ids && c'.hist == CastVote(c.hist, n, s.currentTerm, cand)
    ensures RoleOk(c', n, s.(votedFor := Some(cand)))
  {}

  lemma GrantMove(c: Cluster, n: NodeId, p: Packet)
    requires Inv(c) && n in c.ids && p in c.net && p.msg.RequestVote? && p.msg.term == c.nodes[n].currentTerm
    requires c.nodes[n].votedFor.None? && |c.nodes[n].log| >= 1
    requires UpToDate(p.msg.lastLogIndex, p.msg.lastLogTerm, c.nodes[n].log)
    ensures Inv(Move(c, n, c.nodes[n].(votedFor := Some(p.msg.candidateId)), {},
                     CastVote(c.hist, n, c.nodes[n].currentTerm, p.msg.candidateId)))
  {
    hide RoleOk, CommitOk, TermsOk, Completeness, BallotsOk, TicketsOk, HistoryGrows, PacketsOk, VotesCover, NodesOk,
      KeepsAcked, VoteCovers, UpToDate, LogOk;
    var s, u, cand := c.nodes[n], c.nodes[n].currentTerm, p.msg.candidateId;
    var s' := s.(votedFor := Some(cand));
    var c' := Move(c, n, s', {}, CastVote(c.hist, n, u, cand));
    NodeHolds(c, n);
    PacketHolds(c, p);
    NodeHolds(c, cand);
    LogNonEmpty(c, cand);
    FutureVote(c, n, s, u);
    CandidateVoted(c, n);
    VoteAdvances(c, n, s', cand);
    GrantRole(c, c', n, s, cand);
    if cand == n {
      assert VoteCovers(c', n, u) by { NotCandidateCovers(c', n, u); }
    } else {
      GrantCovers(c, c', n, cand);
    }
    VoteMove(c, n, s', cand);
  }

  lemma LogNonEmpty(c: Cluster, n: NodeId)
    requires n in c.nodes && NodeOk(c, n)
    ensures |c.nodes[n].log| >= 1
  {}

  lemma CandidateVoted(c: Cluster, n: NodeId)
    requires n in c.nodes && NodeOk(c, n) && c.nodes[n].votedFor.None?
    ensures c.nodes[n].role != Candidate
  {}

  lemma NotCandidateCovers(c: Cluster, n: NodeId, u: nat)
    requires (n, u) in c.hist.votes && c.hist.votes[(n, u)] in c.nodes
             && c.nodes[c.hist.votes[(n, u)]].role != Candidate
    ensures VoteCovers(c, n, u)
  {}
}
