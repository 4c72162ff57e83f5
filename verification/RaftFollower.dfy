/** A follower takes in the leader's entries. */
module RaftFollower {
  import opened Commands
  import opened RaftTypes
  import opened RaftHandlers
  import opened RaftCluster
  import opened RaftInvariants
  import opened RaftFrames
  import opened RaftSteps
  import opened RaftBallots

  /** Same term at an index means same log up to it. */
  ghost predicate Matching(a: seq<LogEntry>, b: seq<LogEntry>) {
    forall i :: 0 <= i < |a| && i < |b| && a[i].term == b[i].term ==> a[..i + 1] == b[..i + 1]
  }

  lemma BackedMatch(T: TermLogs, a: seq<LogEntry>, b: seq<LogEntry>, x: nat, y: nat)
    requires LogOk(T, a, x) && LogOk(T, b, y)
    ensures Matching(a, b)
  {
    forall i | 0 <= i < |a| && i < |b| && a[i].term == b[i].term ensures a[..i + 1] == b[..i + 1] {
      assert Backed(T, a, i) && Backed(T, b, i);
    }
  }

  /** Up to the first conflict at `cut` the two logs agree; there the follower's is cut and the leader's laid. */
  lemma ReconcileCut(log: seq<LogEntry>, leader: seq<LogEntry>, at: nat, entries: seq<LogEntry>) returns (cut: nat)
    requires 1 <= at <= |log| && at + |entries| <= |leader| && entries == leader[at..at + |entries|]
    requires log[at - 1].term == leader[at - 1].term && Matching(log, leader)
    ensures at <= cut <= at + |entries| && cut <= |log| && log[..cut] == leader[..cut]
    ensures cut == at + |entries| ==> Reconcile(log, at, entries) == log
    ensures cut < at + |entries| ==>
              && Reconcile(log, at, entries) == leader[..at + |entries|]
              && (cut < |log| ==> log[cut] != leader[cut])
  {
    AgreeingBound(log, at, entries);
    var n := Agreeing(log, at, entries);
    cut := at + n;
    assert n > 0 ==> log[at + (n - 1)].term == entries[n - 1].term == leader[cut - 1].term;
    assert log[..cut - 1 + 1] == leader[..cut - 1 + 1];
    if n < |entries| {
      assert entries[n..] == leader[cut..at + |entries|];
      assert leader[..cut] + leader[cut..at + |entries|] == leader[..at + |entries|];
      assert leader[cut] == entries[n];
    }
  }

  /**
    What the append loop does when the request matches at `at - 1`: the follower ends up with the
    leader's log up to the last entry sent, and loses nothing it shares with the leader.
  */
  lemma ReconcileLeader(log: seq<LogEntry>, leader: seq<LogEntry>, at: nat, entries: seq<LogEntry>)
    requires 1 <= at <= |log| && at + |entries| <= |leader| && entries == leader[at..at + |entries|]
    requires log[at - 1].term == leader[at - 1].term && Matching(log, leader)
    ensures var r, end := Reconcile(log, at, entries), at + |entries| - 1;
            && Extends(r, leader, end)
            && (r == log || r == leader[..end + 1])
            && (forall i: nat :: Extends(log, leader, i) ==> Extends(r, leader, i))
  {
    var cut := ReconcileCut(log, leader, at, entries);
    var r := Reconcile(log, at, entries);
    hide Reconcile, Matching;
    if cut < at + |entries| {
      forall i: nat | Extends(log, leader, i) ensures Extends(r, leader, i) {
        assert i < cut;
        assert leader[..at + |entries|][..i + 1] == leader[..i + 1];
      }
    }
  }

  /** Whatever was committed before is in the log of every leader at least as recent. */
  lemma CommittedInLeader(c: Cluster, t: nat, j: nat, u: nat)
    requires Completeness(c) && c.nodes.Keys == c.ids
    requires u in c.hist.termLog && t <= u && Committed(c, t, j)
    ensures t in c.hist.termLog && Extends(c.hist.termLog[u], c.hist.termLog[t], j)
  {
    var q :| CommittedBy(c, t, j, q);
    if t < u && Dead(c, t, j) {
      var d :| DeadBy(c, t, j, d);
      var x := QuorumsMeet(c.ids, q, d);
      assert false;
    }
  }

  lemma PrefixInLeader(c: Cluster, b: nat, log: seq<LogEntry>, i: nat, u: nat)
    requires Completeness(c) && c.nodes.Keys == c.ids
    requires u in c.hist.termLog && b <= u && PrefixCommitted(c, b, log, i)
    ensures Extends(log, c.hist.termLog[u], i)
  {
    hide Completeness, Committed;
    var t, j :| PrefixCommittedBy(c, b, log, i, t, j);
    CommittedInLeader(c, t, j, u);
    var T, U := c.hist.termLog[t], c.hist.termLog[u];
    assert U[..i + 1] == U[..j + 1][..i + 1] == T[..j + 1][..i + 1] == T[..i + 1];
  }

  // ---------------------------------------------------------------- the move

  /** Node n, following the leader of its term, meets a request it accepts. */
  ghost predicate Accepting(c: Cluster, n: NodeId, p: Packet) {
    && c.nodes.Keys == c.ids && n in c.ids && p.dst == n && p.msg.AppendEntries?
    && c.nodes[n].role == Follower && p.msg.term == c.nodes[n].currentTerm
    && Sane(c.nodes[n]) && Accepts(c.nodes[n], p.msg)
  }

  function Accepted(c: Cluster, n: NodeId, p: Packet): Cluster
    requires n in c.nodes && p.msg.AppendEntries? && Sane(c.nodes[n]) && p.msg.prevLogIndex < |c.nodes[n].log|
  {
    Move(c, n, TakeEntries(c.nodes[n], p.msg), {},
         RecordAck(c.hist, n, p.msg.term, p.msg.prevLogIndex + |p.msg.entries|))
  }

  lemma AcceptReconciles(c: Cluster, n: NodeId, p: Packet)
    requires Accepting(c, n, p) && TermsOk(c) && PacketOk(c, p)
    requires LogOk(c.hist.termLog, c.nodes[n].log, c.nodes[n].currentTerm)
    ensures var log, leader, log' := c.nodes[n].log, c.hist.termLog[p.msg.term], TakeEntries(c.nodes[n], p.msg).log;
            var end := p.msg.prevLogIndex + |p.msg.entries|;
            && Extends(log', leader, end)
            && (log' == log || log' == leader[..end + 1])
            && (forall i: nat :: Extends(log, leader, i) ==> Extends(log', leader, i))
  {
    hide LogOk, Elected, PrefixCommitted, Matching, Reconcile, Extends;
    var m := p.msg;
    var log, leader := c.nodes[n].log, c.hist.termLog[m.term];
    BackedMatch(c.hist.termLog, log, leader, m.term, m.term);
    ReconcileLeader(log, leader, m.prevLogIndex + 1, m.entries);
  }

  lemma AcceptAdvances(c: Cluster, n: NodeId, p: Packet)
    requires Accepting(c, n, p)
    ensures Advances(c, Accepted(c, n, p), n)
  {}

  lemma AcceptBallots(c: Cluster, n: NodeId, p: Packet)
    requires Accepting(c, n, p) && BallotsOk(c) && PacketOk(c, p)
    ensures BallotsOk(Accepted(c, n, p))
  {}

  lemma AcceptTickets(h: History, n: NodeId, t: nat, k: nat)
    requires TicketsOk(h)
    ensures TicketsOk(RecordAck(h, n, t, k))
  {}

  lemma PrefixLogOk(T: TermLogs, log: seq<LogEntry>, b: nat, k: nat)
    requires LogOk(T, log, b) && 0 < k <= |log|
    ensures LogOk(T, log[..k], b)
  {
    forall i | 0 <= i < k ensures Backed(T, log[..k], i) {
      assert Backed(T, log, i);
      assert log[..k][..i + 1] == log[..i + 1];
    }
  }

  lemma AcceptLogOk(c: Cluster, n: NodeId, p: Packet)
    requires Accepting(c, n, p) && TermsOk(c) && PacketOk(c, p)
    requires LogOk(c.hist.termLog, c.nodes[n].log, c.nodes[n].currentTerm)
    ensures LogOk(c.hist.termLog, TakeEntries(c.nodes[n], p.msg).log, c.nodes[n].currentTerm)
  {
    hide LogOk, Elected, PrefixCommitted, TakeEntries;
    AcceptReconciles(c, n, p);
    var u, end := p.msg.term, p.msg.prevLogIndex + |p.msg.entries|;
    PrefixLogOk(c.hist.termLog, c.hist.termLog[u], u, end + 1);
  }

  lemma AcceptKeepsOld(c: Cluster, n: NodeId, p: Packet, log': seq<LogEntry>, t: nat, i: nat)
    requires Accepting(c, n, p) && BallotsOk(c) && Completeness(c) && KeepsAcked(c, n, c.nodes[n].log)
    requires p.msg.term in c.hist.termLog && OwnEntry(c.hist, t, i) && Acked(c.hist, n, t, i)
    requires var log, leader := c.nodes[n].log, c.hist.termLog[p.msg.term];
             Extends(log, leader, i) ==> Extends(log', leader, i)
    ensures Safe(c, t, i, log')
  {
    hide Dead, Sane, Accepts;
    assert Safe(c, t, i, c.nodes[n].log);
    assert t < p.msg.term ==> Safe(c, t, i, c.hist.termLog[p.msg.term]);
  }

  /** Acknowledged entries survive the truncation, unless they are dead. */
  lemma AcceptKeeps(c: Cluster, n: NodeId, p: Packet)
    requires Accepting(c, n, p) && TermsOk(c) && BallotsOk(c) && Completeness(c) && PacketOk(c, p) && NodeOk(c, n)
    ensures KeepsAcked(Accepted(c, n, p), n, TakeEntries(c.nodes[n], p.msg).log)
  {
    hide TermsOk, BallotsOk, Completeness, Elected, PrefixCommitted, TakeEntries, RoleOk, CommitOk, LogOk, Dead,
      HistoryGrows, Reconcile, Safe, KeepsAcked;
    AcceptReconciles(c, n, p);
    AcceptAdvances(c, n, p);
    var u, end := p.msg.term, p.msg.prevLogIndex + |p.msg.entries|;
    var c' := Accepted(c, n, p);
    var T, log' := c.hist.termLog, TakeEntries(c.nodes[n], p.msg).log;
    forall t: nat, i: nat | OwnEntry(c'.hist, t, i) && Acked(c'.hist, n, t, i) ensures Safe(c', t, i, log') {
      if t == u && i <= end {
        assert log'[..i + 1] == log'[..end + 1][..i + 1] == T[u][..end + 1][..i + 1] == T[u][..i + 1];
        ExtendsIsSafe(c', t, i, log');
      } else {
        AcceptKeepsOld(c, n, p, log', t, i);
        SafePersists(c, c', n, t, i, log');
      }
    }
    KeepsAckedIntro(c', n, log');
  }

  lemma ExtendsIsSafe(c: Cluster, t: nat, i: nat, log: seq<LogEntry>)
    requires t in c.hist.termLog && Extends(log, c.hist.termLog[t], i)
    ensures Safe(c, t, i, log)
  {}

  lemma KeepsAckedIntro(c: Cluster, n: NodeId, log: seq<LogEntry>)
    requires forall t: nat, i: nat :: OwnEntry(c.hist, t, i) && Acked(c.hist, n, t, i) ==> Safe(c, t, i, log)
    ensures KeepsAcked(c, n, log)
  {
    hide Safe;
  }

  lemma AcceptCommitOk(c: Cluster, n: NodeId, p: Packet)
    requires Accepting(c, n, p) && TermsOk(c) && Completeness(c) && PacketOk(c, p) && NodeOk(c, n)
    ensures CommitOk(Accepted(c, n, p), TakeEntries(c.nodes[n], p.msg))
  {
    hide TermsOk, Completeness, RoleOk, LogOk, KeepsAcked, HistoryGrows, Reconcile, PrefixCommitted, Replay;
    AcceptReconciles(c, n, p);
    AcceptAdvances(c, n, p);
    var u, end := p.msg.term, p.msg.prevLogIndex + |p.msg.entries|;
    var c' := Accepted(c, n, p);
    var s, s', leader := c.nodes[n], TakeEntries(c.nodes[n], p.msg), c.hist.termLog[p.msg.term];
    var commit := p.msg.leaderCommit;
    assert s'.commitIndex == commit;
    assert s'.log[..commit + 1] == s'.log[..end + 1][..commit + 1];
    assert leader[..end + 1][..commit + 1] == leader[..commit + 1];
    PrefixCommittedPersists(c, c', n, u, u, leader, s'.log, commit);
    PrefixInLeader(c, u, s.log, s.lastApplied, u);
    assert Extends(s'.log, leader, s.lastApplied);
    assert s'.log[..s.lastApplied + 1] == s.log[..s.lastApplied + 1];
    PrefixCommittedPersists(c, c', n, u, u, s.log, s'.log, s.lastApplied);
    assert s'.log[1..s.lastApplied + 1] == s'.log[..s.lastApplied + 1][1..];
    assert s.log[1..s.lastApplied + 1] == s.log[..s.lastApplied + 1][1..];
  }

  lemma AcceptRole(c: Cluster, n: NodeId, p: Packet)
    requires Accepting(c, n, p) && RoleOk(c, n, c.nodes[n])
    ensures RoleOk(Accepted(c, n, p), n, TakeEntries(c.nodes[n], p.msg))
  {}

  lemma AcceptMove(c: Cluster, n: NodeId, p: Packet)
    requires Accepting(c, n, p) && p in c.net
    requires Inv(c)
    ensures Inv(Accepted(c, n, p))
  {
    hide NodeOk, RoleOk, CommitOk, KeepsAcked, TermsOk, Completeness, BallotsOk, TicketsOk, HistoryGrows, PacketsOk,
      VotesCover, NodesOk, PacketOk, LogOk, Reconcile, TakeEntries, Sane, AckLevel;
    NodeHolds(c, n);
    PacketHolds(c, p);
    var c' := Accepted(c, n, p);
    AcceptAdvances(c, n, p);
    AcceptBallots(c, n, p);
    AcceptTickets(c.hist, n, p.msg.term, p.msg.prevLogIndex + |p.msg.entries|);
    SameTerms(c, c', n);
    AcceptNodeOk(c, n, p);
    Reassemble(c, c', n);
  }

  lemma AcceptNodeOk(c: Cluster, n: NodeId, p: Packet)
    requires Accepting(c, n, p) && TermsOk(c) && BallotsOk(c) && Completeness(c) && PacketOk(c, p) && NodeOk(c, n)
    ensures NodeOk(Accepted(c, n, p), n)
  {
    hide RoleOk, CommitOk, KeepsAcked, TermsOk, Completeness, BallotsOk, PacketOk, LogOk, Reconcile;
    AcceptRole(c, n, p);
    AcceptLogOk(c, n, p);
    AcceptKeeps(c, n, p);
    AcceptCommitOk(c, n, p);
  }
}
