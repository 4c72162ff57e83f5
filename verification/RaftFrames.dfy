/** What a single node's move cannot disturb. */
module RaftFrames {
  import opened Commands
  import opened RaftTypes
  import opened RaftHandlers
  import opened RaftCluster
  import opened RaftInvariants

  // ---------------------------------------------------------------- quorums intersect

  lemma SubsetCard<T>(a: set<T>, b: set<T>)
    requires a <= b
    ensures |a| <= |b|
  {
    assert b == a + (b - a);
  }

  lemma QuorumsMeet(ids: set<NodeId>, a: set<NodeId>, b: set<NodeId>) returns (x: NodeId)
    requires Quorum(ids, a) && Quorum(ids, b)
    ensures x in a && x in b
  {
    if a * b == {} {
      SubsetCard(a + b, ids);
      assert false;
    }
    x :| x in a * b;
  }

  // ---------------------------------------------------------------- monotone history

  /** `h'` extends `h` by what node n, in term `b` or later, may add. */
  ghost predicate HistoryGrows(h: History, h': History, n: NodeId, b: nat) {
    && (forall t :: t in h.termLog ==>
          && t in h'.termLog && h.termLog[t] <= h'.termLog[t]
          && (h'.termLog[t] == h.termLog[t] || (t in h.leaderOf && h.leaderOf[t] == n)))
    && (forall t :: t in h.leaderOf ==> t in h'.leaderOf && h'.leaderOf[t] == h.leaderOf[t])
    && (forall t :: t in h'.leaderOf ==> t in h.leaderOf || h'.leaderOf[t] == n)
    && (forall k :: k in h.votes ==> k in h'.votes && h'.votes[k] == h.votes[k])
    && (forall k :: k in h'.votes ==> k in h.votes || (k.0 == n && b <= k.1))
    && (forall k :: k in h.acks ==> k in h'.acks && h.acks[k] <= h'.acks[k])
    && (forall k :: k in h'.acks ==> (k in h.acks && h'.acks[k] == h.acks[k]) || (k.0 == n && b <= k.1))
    && (forall k :: k in h.tickets ==> k in h'.tickets && h'.tickets[k] == h.tickets[k])
    && (forall k :: k in h'.answered ==> k in h.answered || k.0 == n)
  }

  ghost predicate Advances(c: Cluster, c': Cluster, n: NodeId) {
    && n in c.ids && c'.ids == c.ids && c.nodes.Keys == c.ids == c'.nodes.Keys
    && c.net <= c'.net
    && (forall m :: m in c.ids && m != n ==> c'.nodes[m] == c.nodes[m])
    && c.nodes[n].currentTerm <= c'.nodes[n].currentTerm
    && (c'.nodes[n].role == Candidate && c'.nodes[n].currentTerm == c.nodes[n].currentTerm ==>
          c.nodes[n].role == Candidate && c'.nodes[n].log == c.nodes[n].log)
    && HistoryGrows(c.hist, c'.hist, n, c.nodes[n].currentTerm)
  }

  // ---------------------------------------------------------------- facts that persist

  lemma LogOkPersists(T: TermLogs, T': TermLogs, log: seq<LogEntry>, bound: nat, bound': nat)
    requires LogOk(T, log, bound) && bound <= bound'
    requires forall t :: t in T ==> t in T' && T[t] <= T'[t]
    ensures LogOk(T', log, bound')
  {
    forall i | 0 <= i < |log| ensures Backed(T', log, i) {
      assert Backed(T, log, i);
      assert T'[log[i].term][..i + 1] == T[log[i].term][..i + 1];
    }
  }

  lemma ExtendsPersists(log: seq<LogEntry>, base: seq<LogEntry>, base': seq<LogEntry>, i: nat)
    requires Extends(log, base, i) && base <= base'
    ensures Extends(log, base', i)
  {
    assert base'[..i + 1] == base[..i + 1];
  }

  lemma CommittedPersists(c: Cluster, c': Cluster, n: NodeId, t: nat, i: nat)
    requires Advances(c, c', n) && Committed(c, t, i)
    ensures Committed(c', t, i)
  {
    var q :| CommittedBy(c, t, i, q);
    assert CommittedBy(c', t, i, q);
  }

  lemma PrefixCommittedPersists(c: Cluster, c': Cluster, n: NodeId, b: nat, b': nat,
                                log: seq<LogEntry>, log': seq<LogEntry>, i: nat)
    requires Advances(c, c', n) && PrefixCommitted(c, b, log, i) && b <= b'
    requires i < |log'| && (i < |log| ==> log'[..i + 1] == log[..i + 1])
    ensures PrefixCommitted(c', b', log', i)
  {
    var t, j :| PrefixCommittedBy(c, b, log, i, t, j);
    CommittedPersists(c, c', n, t, j);
    ExtendsPersists(log, c.hist.termLog[t], c'.hist.termLog[t], i);
    assert PrefixCommittedBy(c', b', log', i, t, j);
  }

  lemma DeadPersists(c: Cluster, c': Cluster, n: NodeId, t: nat, i: nat)
    requires Advances(c, c', n) && Dead(c, t, i)
    ensures Dead(c', t, i)
  {
    var q :| DeadBy(c, t, i, q);
    assert DeadBy(c', t, i, q);
  }

  lemma SafePersists(c: Cluster, c': Cluster, n: NodeId, t: nat, i: nat, log: seq<LogEntry>)
    requires Advances(c, c', n) && t in c.hist.termLog && Safe(c, t, i, log)
    ensures t in c'.hist.termLog && Safe(c', t, i, log)
  {
    if Dead(c, t, i) {
      DeadPersists(c, c', n, t, i);
    } else {
      ExtendsPersists(log, c.hist.termLog[t], c'.hist.termLog[t], i);
    }
  }

  /** An acknowledged own entry of the new history already was one, unless node n added it just now. */
  lemma OldOwnEntry(c: Cluster, c': Cluster, n: NodeId, q: NodeId, t: nat, i: nat)
    requires Advances(c, c', n) && BallotsOk(c)
    requires Acked(c.hist, q, t, i) && OwnEntry(c'.hist, t, i)
    ensures OwnEntry(c.hist, t, i)
  {
    assert c.hist.termLog[t] <= c'.hist.termLog[t];
  }

  lemma KeepsAckedPersists(c: Cluster, c': Cluster, n: NodeId, m: NodeId, log: seq<LogEntry>)
    requires Advances(c, c', n) && BallotsOk(c) && KeepsAcked(c, m, log)
    requires forall t, i :: Acked(c'.hist, m, t, i) ==> Acked(c.hist, m, t, i)
    ensures KeepsAcked(c', m, log)
  {
    forall t: nat, i: nat | OwnEntry(c'.hist, t, i) && Acked(c'.hist, m, t, i) ensures Safe(c', t, i, log) {
      OldOwnEntry(c, c', n, m, t, i);
      SafePersists(c, c', n, t, i, log);
    }
  }

  lemma OtherBallotOk(c: Cluster, c': Cluster, n: NodeId, m: NodeId, s: NodeState)
    requires Advances(c, c', n) && m != n
    ensures VotesOk(c.hist, m, s) ==> VotesOk(c'.hist, m, s)
    ensures CandidateOk(c, m, s) ==> CandidateOk(c', m, s)
    ensures PendingOk(c.hist, m, s) ==> PendingOk(c'.hist, m, s)
  {}

  lemma OtherLeaderOk(c: Cluster, c': Cluster, n: NodeId, m: NodeId, s: NodeState)
    requires Advances(c, c', n) && m != n && LeaderOk(c.hist, m, s)
    ensures LeaderOk(c'.hist, m, s)
  {}

  lemma OtherRoleOk(c: Cluster, c': Cluster, n: NodeId, m: NodeId, s: NodeState)
    requires Advances(c, c', n) && m != n && RoleOk(c, m, s)
    ensures RoleOk(c', m, s)
  {
    OtherBallotOk(c, c', n, m, s);
    if s.role == Leader {
      OtherLeaderOk(c, c', n, m, s);
    }
  }

  lemma CommitOkPersists(c: Cluster, c': Cluster, n: NodeId, s: NodeState, s': NodeState)
    requires Advances(c, c', n) && CommitOk(c, s)
    requires s'.log == s.log && s'.commitIndex == s.commitIndex && s'.lastApplied == s.lastApplied && s'.db == s.db
    requires s.currentTerm <= s'.currentTerm
    ensures CommitOk(c', s')
  {
    hide HistoryGrows;
    PrefixCommittedPersists(c, c', n, s.currentTerm, s'.currentTerm, s.log, s.log, s.commitIndex);
    PrefixCommittedPersists(c, c', n, s.currentTerm, s'.currentTerm, s.log, s.log, s.lastApplied);
  }

  lemma OtherNodeOk(c: Cluster, c': Cluster, n: NodeId, m: NodeId)
    requires Advances(c, c', n) && BallotsOk(c) && m in c.ids && m != n && NodeOk(c, m)
    ensures NodeOk(c', m)
  {
    var s := c.nodes[m];
    OtherRoleOk(c, c', n, m, s);
    LogOkPersists(c.hist.termLog, c'.hist.termLog, s.log, s.currentTerm, s.currentTerm);
    KeepsAckedPersists(c, c', n, m, s.log);
    CommitOkPersists(c, c', n, s, s);
  }

  lemma PacketOkPersists(c: Cluster, c': Cluster, n: NodeId, p: Packet)
    requires Advances(c, c', n) && PacketOk(c, p)
    ensures PacketOk(c', p)
  {
    match p.msg
    case AppendEntries(t, leader, prev, prevTerm, entries, commit) =>
      var T, T' := c.hist.termLog[t], c'.hist.termLog[t];
      assert T'[prev + 1..prev + 1 + |entries|] == T[prev + 1..prev + 1 + |entries|];
      assert T'[..commit + 1] == T[..commit + 1];
      PrefixCommittedPersists(c, c', n, t, t, T, T', commit);
    case _ =>
  }

  /** Votes cast earlier keep covering: what a voter acknowledged in older terms no longer changes. */
  lemma OldVoteCovers(c: Cluster, c': Cluster, n: NodeId, q: NodeId, u: nat)
    requires Advances(c, c', n) && BallotsOk(c)
    requires (q, u) in c.hist.votes && VoteCovers(c, q, u)
    ensures VoteCovers(c', q, u)
  {
    var m := c.hist.votes[(q, u)];
    var s := c'.nodes[m];
    if s.role == Candidate && s.currentTerm == u {
      assert c.nodes[m].currentTerm == u && c.nodes[m].role == Candidate && c.nodes[m].log == s.log;
      forall t: nat, i: nat | t < u && OwnEntry(c'.hist, t, i) && Acked(c'.hist, q, t, i)
        ensures Safe(c', t, i, s.log)
      {
        assert u <= c.nodes[q].currentTerm;
        assert Acked(c.hist, q, t, i);
        OldOwnEntry(c, c', n, q, t, i);
        SafePersists(c, c', n, t, i, s.log);
      }
    }
  }

  lemma OldElected(c: Cluster, c': Cluster, n: NodeId, t: nat)
    requires Advances(c, c', n) && t in c.hist.leaderOf && exists q :: Elected(c, t, q)
    ensures exists q :: Elected(c', t, q)
  {
    var q :| Elected(c, t, q);
    assert Elected(c', t, q);
  }

  // ---------------------------------------------------------------- putting the invariant back together

  /** The parts of the invariant that only the moving node can break. */
  ghost predicate MoveOk(c: Cluster, c': Cluster, n: NodeId) {
    && Advances(c, c', n)
    && NodeOk(c', n)
    && (forall p :: p in c'.net && p !in c.net ==> PacketOk(c', p))
    && BallotsOk(c')
    && (forall k :: k in c'.hist.votes && k !in c.hist.votes ==>
          c'.hist.votes[k] in c'.nodes && VoteCovers(c', k.0, k.1))
    && TicketsOk(c'.hist)
  }

  lemma NodesPersist(c: Cluster, c': Cluster, n: NodeId)
    requires Advances(c, c', n) && BallotsOk(c) && NodesOk(c) && NodeOk(c', n)
    ensures NodesOk(c')
  {
    hide NodeOk, BallotsOk, HistoryGrows;
    forall m | m in c'.ids ensures NodeOk(c', m) {
      if m != n {
        OtherNodeOk(c, c', n, m);
      }
    }
  }

  lemma PacketsPersist(c: Cluster, c': Cluster, n: NodeId)
    requires Advances(c, c', n) && PacketsOk(c)
    requires forall p :: p in c'.net && p !in c.net ==> PacketOk(c', p)
    ensures PacketsOk(c')
  {
    forall p | p in c'.net ensures PacketOk(c', p) {
      if p in c.net {
        PacketOkPersists(c, c', n, p);
      }
    }
  }

  lemma VotesPersist(c: Cluster, c': Cluster, n: NodeId)
    requires Advances(c, c', n) && BallotsOk(c) && VotesCover(c)
    requires forall k :: k in c'.hist.votes && k !in c.hist.votes ==>
               c'.hist.votes[k] in c'.nodes && VoteCovers(c', k.0, k.1)
    ensures VotesCover(c')
  {
    forall k | k in c'.hist.votes ensures c'.hist.votes[k] in c'.nodes && VoteCovers(c', k.0, k.1) {
      if k in c.hist.votes {
        OldVoteCovers(c, c', n, k.0, k.1);
      }
    }
  }

  lemma Reassemble(c: Cluster, c': Cluster, n: NodeId)
    requires Inv(c) && MoveOk(c, c', n) && TermsOk(c') && Completeness(c')
    ensures Inv(c')
  {
    hide NodesOk, PacketsOk, VotesCover, TermsOk, Completeness, BallotsOk, TicketsOk, NodeOk, HistoryGrows;
    NodesPersist(c, c', n);
    PacketsPersist(c, c', n);
    VotesPersist(c, c', n);
  }

  lemma SameTerms(c: Cluster, c': Cluster, n: NodeId)
    requires TermsOk(c) && Completeness(c) && Advances(c, c', n)
    requires c'.hist.termLog == c.hist.termLog && c'.hist.leaderOf == c.hist.leaderOf
    ensures TermsOk(c') && Completeness(c')
  {
    forall t | t in c'.hist.leaderOf ensures exists q :: Elected(c', t, q) {
      OldElected(c, c', n, t);
    }
    forall t: nat, u: nat, i: nat | u in c'.hist.termLog && t < u && OwnEntry(c'.hist, t, i)
      ensures Safe(c', t, i, c'.hist.termLog[u])
    {
      assert OwnEntry(c.hist, t, i);
      SafePersists(c, c', n, t, i, c.hist.termLog[u]);
    }
  }
}
