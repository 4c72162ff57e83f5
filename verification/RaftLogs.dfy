/** Winning an election, appending as leader, accepting as follower: the moves that extend the log history. */
module RaftLogs {
  import opened Commands
  import opened RaftTypes
  import opened RaftHandlers
  import opened RaftCluster
  import opened RaftInvariants
  import opened RaftFrames
  import opened RaftSteps
  import opened RaftBallots

  /** Term u's log becomes `log`, held in full by its leader n. */
  function Lead(h: History, n: NodeId, u: nat, log: seq<LogEntry>): History
    requires |log| >= 1
  {
    h.(termLog := h.termLog[u := log], leaderOf := h.leaderOf[u := n], acks := h.acks[(n, u) := |log| - 1])
  }

  // ---------------------------------------------------------------- winning

  /** Two quorums of one term share a voter, and a voter votes once: a term is won at most once. */
  lemma WonOnce(c: Cluster, n: NodeId)
    requires n in c.ids && c.nodes.Keys == c.ids && TermsOk(c)
    requires var s := c.nodes[n]; CandidateOk(c, n, s) && Quorum(c.ids, s.votesReceived)
    ensures c.nodes[n].currentTerm !in c.hist.leaderOf
  {
    hide LogOk;
    var s := c.nodes[n];
    if s.currentTerm in c.hist.leaderOf {
      var q :| Elected(c, s.currentTerm, q);
      var x := QuorumsMeet(c.ids, q, s.votesReceived);
    }
  }

  lemma TermIsOpen(c: Cluster, n: NodeId)
    requires n in c.ids && c.nodes.Keys == c.ids && TermsOk(c) && BallotsOk(c)
    requires var s := c.nodes[n];
             |s.log| >= 1 && CandidateOk(c, n, s) && Quorum(c.ids, s.votesReceived)
    ensures var u := c.nodes[n].currentTerm;
            u > 0 && u !in c.hist.termLog && u !in c.hist.leaderOf && (n, u) !in c.hist.acks
  {
    hide LogOk, Elected;
    WonOnce(c, n);
    assert c.nodes[n].log[0].term < c.nodes[n].currentTerm;
  }

  lemma ElectAdvances(c: Cluster, n: NodeId, s: NodeState)
    requires n in c.ids && c.nodes.Keys == c.ids && |s.log| >= 1
    requires s.role == Leader && s.currentTerm == c.nodes[n].currentTerm
    requires s.currentTerm !in c.hist.termLog && s.currentTerm !in c.hist.leaderOf
    requires (n, s.currentTerm) !in c.hist.acks
    ensures Advances(c, Move(c, n, s, {}, Lead(c.hist, n, s.currentTerm, s.log)), n)
  {}

  lemma ElectBallots(c: Cluster, n: NodeId, s: NodeState)
    requires n in c.ids && c.nodes.Keys == c.ids && |s.log| >= 1 && BallotsOk(c)
    requires s.currentTerm == c.nodes[n].currentTerm && s.currentTerm !in c.hist.termLog
    ensures BallotsOk(Move(c, n, s, {}, Lead(c.hist, n, s.currentTerm, s.log)))
  {}

  lemma ElectTickets(h: History, n: NodeId, u: nat, log: seq<LogEntry>)
    requires TicketsOk(h) && |log| >= 1 && u !in h.termLog && u !in h.leaderOf
    ensures TicketsOk(Lead(h, n, u, log))
  {}

  lemma ElectLogs(T: TermLogs, T': TermLogs, u: nat, log: seq<LogEntry>)
    requires u !in T && LogOk(T, log, u) && T' == T[u := log]
    requires forall t :: t in T ==> LogOk(T, T[t], t)
    ensures forall t :: t in T' ==> LogOk(T', T'[t], t)
  {
    hide LogOk;
    forall t | t in T' ensures LogOk(T', T'[t], t) {
      LogOkPersists(T, T', T'[t], t, t);
    }
  }

  lemma ElectTerms(c: Cluster, c': Cluster, n: NodeId)
    requires Advances(c, c', n) && TermsOk(c)
    requires var s, u := c'.nodes[n], c.nodes[n].currentTerm;
             && |s.log| >= 1 && u > 0 && c'.hist == Lead(c.hist, n, u, s.log)
             && u !in c.hist.termLog
             && LogOk(c.hist.termLog, s.log, u)
             && Elected(c', u, s.votesReceived)
    ensures TermsOk(c')
  {
    hide LogOk, HistoryGrows, Elected;
    var s, u := c'.nodes[n], c.nodes[n].currentTerm;
    ElectLogs(c.hist.termLog, c'.hist.termLog, u, s.log);
    forall t | t in c'.hist.leaderOf ensures exists q :: Elected(c', t, q) {
      if t == u {
        assert Elected(c', u, s.votesReceived);
      } else {
        OldElected(c, c', n, t);
      }
    }
  }

  /** The heart of leader completeness: the winner's log covers whatever any quorum may still commit. */
  lemma WinnerCovers(c: Cluster, n: NodeId, t: nat, i: nat)
    requires n in c.ids && c.nodes.Keys == c.ids && BallotsOk(c) && VotesCover(c)
    requires var s := c.nodes[n];
             s.role == Candidate && CandidateOk(c, n, s) && Quorum(c.ids, s.votesReceived) && t < s.currentTerm
    requires OwnEntry(c.hist, t, i)
    ensures Safe(c, t, i, c.nodes[n].log)
  {
    var s := c.nodes[n];
    if x :| x in s.votesReceived && Acked(c.hist, x, t, i) {
      hide Safe;
      var k := (x, s.currentTerm);
      assert k in c.hist.votes && VoteCovers(c, k.0, k.1);
    } else {
      assert DeadBy(c, t, i, s.votesReceived);
    }
  }

  lemma ElectCompleteness(c: Cluster, c': Cluster, n: NodeId)
    requires Advances(c, c', n) && BallotsOk(c) && VotesCover(c) && Completeness(c)
    requires var s, u := c.nodes[n], c.nodes[n].currentTerm;
             && |s.log| >= 1 && u !in c.hist.termLog && c'.hist == Lead(c.hist, n, u, s.log)
             && s.role == Candidate && CandidateOk(c, n, s) && Quorum(c.ids, s.votesReceived)
    ensures Completeness(c')
  {
    hide BallotsOk, VotesCover, CandidateOk, HistoryGrows, Safe;
    var s, u := c.nodes[n], c.nodes[n].currentTerm;
    NoOwnEntry(c, n, s);
    forall t: nat, w: nat, i: nat | w in c'.hist.termLog && t < w && OwnEntry(c'.hist, t, i)
      ensures Safe(c', t, i, c'.hist.termLog[w])
    {
      assert OwnEntry(c.hist, t, i);
      if w == u {
        WinnerCovers(c, n, t, i);
      }
      SafePersists(c, c', n, t, i, c'.hist.termLog[w]);
    }
  }

  lemma NoOwnEntry(c: Cluster, n: NodeId, s: NodeState)
    requires CandidateOk(c, n, s)
    ensures forall i :: 0 <= i < |s.log| ==> s.log[i].term != s.currentTerm
  {}

  lemma ElectKeeps(c: Cluster, c': Cluster, n: NodeId)
    requires Advances(c, c', n)
    requires var s, u := c.nodes[n], c.nodes[n].currentTerm;
             && |s.log| >= 1 && u !in c.hist.termLog && c'.hist == Lead(c.hist, n, u, s.log)
             && CandidateOk(c, n, s) && KeepsAcked(c, n, s.log)
    ensures KeepsAcked(c', n, c.nodes[n].log)
  {
    hide HistoryGrows, Safe, CandidateOk;
    var s, u := c.nodes[n], c.nodes[n].currentTerm;
    NoOwnEntry(c, n, s);
    forall t: nat, i: nat | OwnEntry(c'.hist, t, i) && Acked(c'.hist, n, t, i) ensures Safe(c', t, i, s.log) {
      assert t != u;
      SafePersists(c, c', n, t, i, s.log);
    }
  }

  lemma ElectNodeOk(c: Cluster, c': Cluster, n: NodeId)
    requires Advances(c, c', n) && NodeOk(c, n)
    requires var s, u := c.nodes[n], c.nodes[n].currentTerm;
             && u > 0 && |s.log| >= 1 && u !in c.hist.termLog && CandidateOk(c, n, s)
             && c'.nodes[n] == BecomeLeaderState(s) && c'.hist == Lead(c.hist, n, u, s.log)
    ensures NodeOk(c', n)
  {
    hide RoleOk, CommitOk, HistoryGrows, LogOk, CandidateOk, KeepsAcked;
    var s, s', u := c.nodes[n], c'.nodes[n], c.nodes[n].currentTerm;
    LogsPersist(c, c', n);
    LogOkPersists(c.hist.termLog, c'.hist.termLog, s.log, u, u);
    CommitOkPersists(c, c', n, s, s');
    ElectRole(c, c', n, s);
    ElectKeeps(c, c', n);
  }

  lemma ElectRole(c: Cluster, c': Cluster, n: NodeId, s: NodeState)
    requires RoleOk(c, n, s) && |s.log| >= 1 && s.currentTerm > 0
    requires c'.ids == c.ids && c'.hist == Lead(c.hist, n, s.currentTerm, s.log)
    ensures RoleOk(c', n, BecomeLeaderState(s))
  {
    var s' := BecomeLeaderState(s);
    assert forall p :: p in s.peers ==> p in SeqSet(s.peers);
    assert forall p :: p in s.matchIndex ==> p in s'.matchIndex;
    assert forall p :: p in s'.matchIndex ==> p in SeqSet(s.peers);
  }

  lemma CandidateFacts(c: Cluster, n: NodeId)
    requires n in c.nodes && NodeOk(c, n) && c.nodes[n].role == Candidate
    ensures var s := c.nodes[n]; CandidateOk(c, n, s) && LogOk(c.hist.termLog, s.log, s.currentTerm)
  {
    hide LogOk, CandidateOk, KeepsAcked, CommitOk, VotesOk, PendingOk, LeaderOk;
  }

  lemma WinnerElected(c: Cluster, c': Cluster, n: NodeId, s: NodeState)
    requires CandidateOk(c, n, s) && Quorum(c.ids, s.votesReceived) && |s.log| >= 1
    requires c'.ids == c.ids && c'.hist == Lead(c.hist, n, s.currentTerm, s.log)
    ensures Elected(c', s.currentTerm, s.votesReceived)
  {}

  lemma ElectMove(c: Cluster, n: NodeId)
    requires c.nodes.Keys == c.ids && n in c.ids && c.nodes[n].role == Candidate && |c.nodes[n].log| >= 1
    requires Quorum(c.ids, c.nodes[n].votesReceived)
    requires Inv(c)
    ensures var s := c.nodes[n];
            Inv(Move(c, n, BecomeLeaderState(s), {}, Lead(c.hist, n, s.currentTerm, s.log)))
  {
    hide NodeOk, CommitOk, TermsOk, Completeness, BallotsOk, TicketsOk, HistoryGrows, PacketsOk, VotesCover, NodesOk,
      PacketOk, LogOk, CandidateOk, Quorum, Elected;
    var s, u := c.nodes[n], c.nodes[n].currentTerm;
    var s' := BecomeLeaderState(s);
    var c' := Move(c, n, s', {}, Lead(c.hist, n, u, s.log));
    NodeHolds(c, n);
    CandidateFacts(c, n);
    TermIsOpen(c, n);
    ElectAdvances(c, n, s');
    ElectBallots(c, n, s');
    ElectTickets(c.hist, n, u, s.log);
    WinnerElected(c, c', n, s);
    ElectTerms(c, c', n);
    ElectCompleteness(c, c', n);
    ElectNodeOk(c, c', n);
    Reassemble(c, c', n);
  }

  // ---------------------------------------------------------------- appending as leader

  function File(h: History, k: (NodeId, nat, nat), ticket: Option<Ticket>): History {
    if ticket.Some? then h.(tickets := h.tickets[k := ticket.value]) else h
  }

  /** The history after leader n of term u appends `e`, on behalf of `ticket` if a client waits for it. */
  function Extend(h: History, n: NodeId, u: nat, log: seq<LogEntry>, e: LogEntry, ticket: Option<Ticket>): History {
    File(Lead(h, n, u, log + [e]), (n, |log|, u), ticket)
  }

  lemma AppendAdvances(c: Cluster, n: NodeId, e: LogEntry, ticket: Option<Ticket>)
    requires n in c.ids && c.nodes.Keys == c.ids && c.nodes[n].role == Leader && LeaderOk(c.hist, n, c.nodes[n])
    requires TicketsOk(c.hist)
    ensures var s := c.nodes[n];
            && (n, |s.log|, s.currentTerm) !in c.hist.tickets
            && Advances(c, Move(c, n, s.(log := s.log + [e]), {},
                                Extend(c.hist, n, s.currentTerm, s.log, e, ticket)), n)
  {
    var s := c.nodes[n];
    assert s.log <= s.log + [e];
  }

  lemma AppendBallots(c: Cluster, n: NodeId, e: LogEntry, ticket: Option<Ticket>)
    requires n in c.ids && c.nodes.Keys == c.ids && BallotsOk(c) && LeaderOk(c.hist, n, c.nodes[n])
    ensures var s := c.nodes[n];
            BallotsOk(Move(c, n, s.(log := s.log + [e]), {}, Extend(c.hist, n, s.currentTerm, s.log, e, ticket)))
  {}

  lemma AppendTickets(h: History, n: NodeId, u: nat, log: seq<LogEntry>, command: Command, ticket: Option<Ticket>)
    requires TicketsOk(h) && u in h.termLog && h.termLog[u] == log && u in h.leaderOf && h.leaderOf[u] == n
    requires ticket.Some? ==> ticket.value.command == command
    ensures TicketsOk(Extend(h, n, u, log, LogEntry(u, command), ticket))
  {}

  lemma AppendLogOk(T: TermLogs, T': TermLogs, u: nat, log: seq<LogEntry>, e: LogEntry)
    requires LogOk(T, log, u) && u in T && T[u] == log && e.term == u && T' == T[u := log + [e]]
    ensures forall t :: t in T ==> t in T' && T[t] <= T'[t]
    ensures LogOk(T', log + [e], u)
  {
    hide LogOk;
    assert log <= log + [e];
    LogOkPersists(T, T', log, u, u);
    AppendLogOkEnd(T', u, log, e);
  }

  lemma AppendLogOkEnd(T': TermLogs, u: nat, log: seq<LogEntry>, e: LogEntry)
    requires LogOk(T', log, u) && e.term == u && u in T' && T'[u] == log + [e]
    ensures LogOk(T', log + [e], u)
  {
    forall i | 0 <= i < |log + [e]| ensures Backed(T', log + [e], i) {
      if i < |log| {
        assert Backed(T', log, i);
        assert (log + [e])[..i + 1] == log[..i + 1];
      }
    }
  }

  lemma AppendTerms(c: Cluster, c': Cluster, n: NodeId, e: LogEntry)
    requires Advances(c, c', n) && TermsOk(c)
    requires var s, u := c.nodes[n], c.nodes[n].currentTerm;
             && u > 0 && e.term == u && u in c.hist.termLog && c.hist.termLog[u] == s.log
             && u in c.hist.leaderOf && c.hist.leaderOf[u] == n
             && c'.hist.termLog == c.hist.termLog[u := s.log + [e]] && c'.hist.leaderOf == c.hist.leaderOf
    ensures TermsOk(c')
  {
    hide LogOk, HistoryGrows, Elected;
    var s, u := c.nodes[n], c.nodes[n].currentTerm;
    AppendLogOk(c.hist.termLog, c'.hist.termLog, u, s.log, e);
    forall t | t in c'.hist.termLog ensures LogOk(c'.hist.termLog, c'.hist.termLog[t], t) {
      if t != u {
        LogOkPersists(c.hist.termLog, c'.hist.termLog, c'.hist.termLog[t], t, t);
      }
    }
    forall t | t in c'.hist.leaderOf ensures exists q :: Elected(c', t, q) {
      OldElected(c, c', n, t);
    }
  }

  /** A term already overtaken can still grow, but nobody in the later quorum will ever hold what it adds. */
  lemma VoterMovedOn(c: Cluster, x: NodeId, w: nat, u: nat)
    requires c.nodes.Keys == c.ids && BallotsOk(c) && (x, w) in c.hist.votes && u < w && u in c.hist.termLog
    ensures x in c.ids && u < c.nodes[x].currentTerm && !Acked(c.hist, x, u, |c.hist.termLog[u]|)
  {}

  lemma TermHasVoters(c: Cluster, w: nat) returns (q: set<NodeId>)
    requires TermsOk(c) && w in c.hist.termLog && w > 0
    ensures w in c.hist.leaderOf && Elected(c, w, q)
  {
    hide LogOk;
    q :| Elected(c, w, q);
  }

  lemma OvertakenIsDead(c: Cluster, c': Cluster, n: NodeId, w: nat)
    requires Advances(c, c', n) && TermsOk(c) && BallotsOk(c)
    requires var u := c.nodes[n].currentTerm;
             && w in c.hist.termLog && u < w && u in c.hist.termLog && c'.nodes[n].currentTerm == u
             && (forall q, i :: q != n && Acked(c'.hist, q, u, i) ==> Acked(c.hist, q, u, i))
    ensures var u := c.nodes[n].currentTerm; Dead(c', u, |c.hist.termLog[u]|)
  {
    hide LogOk, HistoryGrows, TermsOk, BallotsOk, Acked;
    var u := c.nodes[n].currentTerm;
    var q := TermHasVoters(c, w);
    forall x | x in q
      ensures x in c'.nodes && u < c'.nodes[x].currentTerm && !Acked(c'.hist, x, u, |c.hist.termLog[u]|)
    {
      VoterMovedOn(c, x, w, u);
    }
    assert DeadBy(c', u, |c.hist.termLog[u]|, q);
  }

  lemma LongerSafe(c: Cluster, t: nat, i: nat, log: seq<LogEntry>, log': seq<LogEntry>)
    requires t in c.hist.termLog && Safe(c, t, i, log) && log <= log'
    ensures Safe(c, t, i, log')
  {
    if i < |log| {
      assert log'[..i + 1] == log[..i + 1];
    }
  }

  lemma AppendCompleteness(c: Cluster, c': Cluster, n: NodeId, e: LogEntry)
    requires Advances(c, c', n) && TermsOk(c) && BallotsOk(c) && Completeness(c)
    requires var s, u := c.nodes[n], c.nodes[n].currentTerm;
             && u in c.hist.termLog && c.hist.termLog[u] == s.log && c'.nodes[n].currentTerm == u
             && c'.hist.termLog == c.hist.termLog[u := s.log + [e]]
             && (forall q, i :: q != n && Acked(c'.hist, q, u, i) ==> Acked(c.hist, q, u, i))
    ensures Completeness(c')
  {
    hide TermsOk, BallotsOk, HistoryGrows, Dead;
    var s, u := c.nodes[n], c.nodes[n].currentTerm;
    forall t: nat, w: nat, i: nat | w in c'.hist.termLog && t < w && OwnEntry(c'.hist, t, i)
      ensures Safe(c', t, i, c'.hist.termLog[w])
    {
      hide Safe;
      if t == u && i == |s.log| {
        OvertakenIsDead(c, c', n, w);
        DeadIsSafe(c', t, i, c'.hist.termLog[w]);
      } else {
        assert OwnEntry(c.hist, t, i);
        SafePersists(c, c', n, t, i, c.hist.termLog[w]);
        LongerSafe(c', t, i, c.hist.termLog[w], c'.hist.termLog[w]);
      }
    }
  }

  lemma DeadIsSafe(c: Cluster, t: nat, i: nat, log: seq<LogEntry>)
    requires t in c.hist.termLog && Dead(c, t, i)
    ensures Safe(c, t, i, log)
  {}

  lemma AppendKeeps(c: Cluster, c': Cluster, n: NodeId, e: LogEntry)
    requires Advances(c, c', n) && KeepsAcked(c, n, c.nodes[n].log)
    requires var s, u := c.nodes[n], c.nodes[n].currentTerm;
             && u in c.hist.termLog && c.hist.termLog[u] == s.log
             && c'.hist.termLog == c.hist.termLog[u := s.log + [e]]
             && (forall t, i :: t != u && Acked(c'.hist, n, t, i) ==> Acked(c.hist, n, t, i))
    ensures KeepsAcked(c', n, c.nodes[n].log + [e])
  {
    hide HistoryGrows, Dead;
    var s, u := c.nodes[n], c.nodes[n].currentTerm;
    forall t: nat, i: nat | OwnEntry(c'.hist, t, i) && Acked(c'.hist, n, t, i) ensures Safe(c', t, i, s.log + [e]) {
      if t != u {
        SafePersists(c, c', n, t, i, s.log);
        LongerSafe(c', t, i, s.log, s.log + [e]);
      }
    }
  }

  lemma AppendCommitOk(c: Cluster, c': Cluster, n: NodeId, s: NodeState, e: LogEntry)
    requires Advances(c, c', n) && CommitOk(c, s)
    ensures CommitOk(c', s.(log := s.log + [e]))
  {
    hide HistoryGrows, PrefixCommitted, Replay;
    var log' := s.log + [e];
    assert log'[..s.commitIndex + 1] == s.log[..s.commitIndex + 1];
    assert log'[..s.lastApplied + 1] == s.log[..s.lastApplied + 1];
    assert log'[1..s.lastApplied + 1] == s.log[1..s.lastApplied + 1];
    PrefixCommittedPersists(c, c', n, s.currentTerm, s.currentTerm, s.log, log', s.commitIndex);
    PrefixCommittedPersists(c, c', n, s.currentTerm, s.currentTerm, s.log, log', s.lastApplied);
  }

  lemma AppendRole(c: Cluster, c': Cluster, n: NodeId, s: NodeState, e: LogEntry, ticket: Option<Ticket>)
    requires RoleOk(c, n, s) && s.role == Leader && |s.log| >= 1
    requires c'.ids == c.ids && c'.hist == Extend(c.hist, n, s.currentTerm, s.log, e, ticket)
    requires (n, |s.log|, s.currentTerm) !in c.hist.tickets
    ensures RoleOk(c', n, s.(log := s.log + [e]))
  {
    var h, h' := c.hist, c'.hist;
    assert forall k :: k in h.tickets ==> k in h'.tickets && h'.tickets[k] == h.tickets[k];
    assert forall p :: p in s.matchIndex ==> p != n;
  }

  lemma LeaderFacts(c: Cluster, n: NodeId)
    requires n in c.nodes && NodeOk(c, n) && c.nodes[n].role == Leader
    ensures LeaderOk(c.hist, n, c.nodes[n]) && |c.nodes[n].log| >= 1
  {
    hide LeaderOk, KeepsAcked, CommitOk, VotesOk, PendingOk, CandidateOk;
  }

  lemma ExtendAcks(h: History, n: NodeId, u: nat, log: seq<LogEntry>, e: LogEntry, ticket: Option<Ticket>)
    ensures var h' := Extend(h, n, u, log, e, ticket);
            && (forall q, i :: q != n && Acked(h', q, u, i) ==> Acked(h, q, u, i))
            && (forall t, i :: t != u && Acked(h', n, t, i) ==> Acked(h, n, t, i))
  {}

  lemma AppendNodeOk(c: Cluster, c': Cluster, n: NodeId, e: LogEntry, ticket: Option<Ticket>)
    requires Advances(c, c', n) && NodeOk(c, n)
    requires var s, u := c.nodes[n], c.nodes[n].currentTerm;
             && s.role == Leader && LeaderOk(c.hist, n, s) && |s.log| >= 1 && e.term == u
             && c'.nodes[n] == s.(log := s.log + [e]) && c'.hist == Extend(c.hist, n, u, s.log, e, ticket)
             && (n, |s.log|, u) !in c.hist.tickets
    ensures NodeOk(c', n)
  {
    hide RoleOk, CommitOk, HistoryGrows, LogOk, KeepsAcked;
    var s, u := c.nodes[n], c.nodes[n].currentTerm;
    ExtendAcks(c.hist, n, u, s.log, e, ticket);
    AppendLogOk(c.hist.termLog, c'.hist.termLog, u, s.log, e);
    AppendRole(c, c', n, s, e, ticket);
    AppendCommitOk(c, c', n, s, e);
    AppendKeeps(c, c', n, e);
  }

  lemma AppendMove(c: Cluster, n: NodeId, command: Command, ticket: Option<Ticket>)
    requires c.nodes.Keys == c.ids && n in c.ids && c.nodes[n].role == Leader
    requires ticket.Some? ==> ticket.value.command == command
    requires Inv(c)
    ensures var s := c.nodes[n];
            && (n, |s.log|, s.currentTerm) !in c.hist.tickets
            && Inv(Move(c, n, AppendEntry(s, command), {},
                        Extend(c.hist, n, s.currentTerm, s.log, LogEntry(s.currentTerm, command), ticket)))
  {
    hide NodeOk, CommitOk, TermsOk, Completeness, BallotsOk, TicketsOk, HistoryGrows, PacketsOk, VotesCover, NodesOk,
      PacketOk, LogOk;
    var s, u := c.nodes[n], c.nodes[n].currentTerm;
    var e := LogEntry(u, command);
    var c' := Move(c, n, s.(log := s.log + [e]), {}, Extend(c.hist, n, u, s.log, e, ticket));
    NodeHolds(c, n);
    LeaderFacts(c, n);
    AppendAdvances(c, n, e, ticket);
    AppendBallots(c, n, e, ticket);
    AppendTickets(c.hist, n, u, s.log, command, ticket);
    ExtendAcks(c.hist, n, u, s.log, e, ticket);
    assert c'.hist.leaderOf == c.hist.leaderOf;
    AppendTerms(c, c', n, e);
    AppendCompleteness(c, c', n, e);
    AppendNodeOk(c, c', n, e, ticket);
    Reassemble(c, c', n);
  }
}
