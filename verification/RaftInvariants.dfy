/**
  The inductive invariant of the cluster.

  Three ideas carry the proof.
  - Every log is backed: up to any of its entries it is a prefix of the log of that entry's term.
  - An index of a term's own entries is safe in a log when the log contains it, or when a quorum has
    left that term without holding it (it is dead: it can never be committed).
  - A prefix is committed when a quorum holds it together with an entry of the current term.
*/
module RaftInvariants {
  import opened Commands
  import opened RaftTypes
  import opened RaftHandlers
  import opened RaftCluster

  // ---------------------------------------------------------------- logs

  type TermLogs = map<nat, seq<LogEntry>>

  /** `log[..i + 1]` is a prefix of the log of the term of entry i. */
  predicate Backed(T: TermLogs, log: seq<LogEntry>, i: nat)
    requires i < |log|
  {
    var t := log[i].term;
    t in T && i < |T[t]| && log[..i + 1] == T[t][..i + 1]
  }

  ghost predicate LogOk(T: TermLogs, log: seq<LogEntry>, bound: nat) {
    && |log| >= 1
    && (forall i :: 0 <= i < |log| ==> Backed(T, log, i))
    && (forall i, j :: 0 <= i <= j < |log| ==> log[i].term <= log[j].term)
    && (forall i :: 0 <= i < |log| ==> log[i].term <= bound)
  }

  predicate Extends(log: seq<LogEntry>, base: seq<LogEntry>, i: nat) {
    i < |base| && i < |log| && log[..i + 1] == base[..i + 1]
  }

  // ---------------------------------------------------------------- quorums, acknowledgement, commitment

  predicate Quorum(ids: set<NodeId>, q: set<NodeId>) {
    q <= ids && 2 * |q| > |ids|
  }

  predicate Acked(h: History, q: NodeId, t: nat, i: nat) {
    (q, t) in h.acks && i <= h.acks[(q, t)]
  }

  /** Index i of term t's log holds an entry made in term t. */
  predicate OwnEntry(h: History, t: nat, i: nat) {
    t in h.termLog && i < |h.termLog[t]| && h.termLog[t][i].term == t
  }

  ghost predicate CommittedBy(c: Cluster, t: nat, i: nat, q: set<NodeId>) {
    Quorum(c.ids, q) && OwnEntry(c.hist, t, i) && forall x :: x in q ==> Acked(c.hist, x, t, i)
  }

  ghost predicate Committed(c: Cluster, t: nat, i: nat) {
    exists q :: CommittedBy(c, t, i, q)
  }

  ghost predicate DeadBy(c: Cluster, t: nat, i: nat, q: set<NodeId>) {
    && Quorum(c.ids, q)
    && forall x :: x in q ==> x in c.nodes && t < c.nodes[x].currentTerm && !Acked(c.hist, x, t, i)
  }

  ghost predicate Dead(c: Cluster, t: nat, i: nat) {
    exists q :: DeadBy(c, t, i, q)
  }

  ghost predicate Safe(c: Cluster, t: nat, i: nat, log: seq<LogEntry>)
    requires t in c.hist.termLog
  {
    Extends(log, c.hist.termLog[t], i) || Dead(c, t, i)
  }

  ghost predicate PrefixCommittedBy(c: Cluster, bound: nat, log: seq<LogEntry>, i: nat, t: nat, j: nat) {
    t <= bound && i <= j && Committed(c, t, j) && t in c.hist.termLog && Extends(log, c.hist.termLog[t], i)
  }

  /** `log[..i + 1]` was committed by a leader of a term up to `bound`. */
  ghost predicate PrefixCommitted(c: Cluster, bound: nat, log: seq<LogEntry>, i: nat) {
    exists t, j :: PrefixCommittedBy(c, bound, log, i, t, j)
  }

  // ---------------------------------------------------------------- one node

  /** Whatever this node acknowledged is still in its log, or dead. */
  ghost predicate KeepsAcked(c: Cluster, n: NodeId, log: seq<LogEntry>) {
    forall t: nat, i: nat :: OwnEntry(c.hist, t, i) && Acked(c.hist, n, t, i) ==> Safe(c, t, i, log)
  }

  ghost predicate VotesOk(h: History, n: NodeId, s: NodeState) {
    && (s.votedFor.Some? ==> (n, s.currentTerm) in h.votes && h.votes[(n, s.currentTerm)] == s.votedFor.value)
    && (s.votedFor.None? ==> (n, s.currentTerm) !in h.votes)
    && (forall t :: s.currentTerm < t ==> (n, t) !in h.votes)
  }

  ghost predicate CandidateOk(c: Cluster, n: NodeId, s: NodeState) {
    && s.votedFor == Some(n)
    && (s.currentTerm in c.hist.leaderOf ==> c.hist.leaderOf[s.currentTerm] != n)
    && (forall i :: 0 <= i < |s.log| ==> s.log[i].term < s.currentTerm)
    && (forall q :: q in s.votesReceived ==>
          q in c.ids && (q, s.currentTerm) in c.hist.votes && c.hist.votes[(q, s.currentTerm)] == n)
  }

  ghost predicate LeaderOk(h: History, n: NodeId, s: NodeState) {
    && s.currentTerm > 0
    && s.currentTerm in h.termLog && h.termLog[s.currentTerm] == s.log
    && s.currentTerm in h.leaderOf && h.leaderOf[s.currentTerm] == n
    && (n, s.currentTerm) in h.acks && h.acks[(n, s.currentTerm)] == |s.log| - 1
    && (forall p :: p in s.peers ==> p in s.nextIndex && 1 <= s.nextIndex[p] <= |s.log|)
    && (forall p :: p in s.matchIndex && s.matchIndex[p] > 0 ==> Acked(h, p, s.currentTerm, s.matchIndex[p]))
  }

  /** A request still waiting stands for a write this node filed as leader, at that very index and term. */
  ghost predicate PendingOk(h: History, n: NodeId, s: NodeState) {
    forall k :: k in s.pending ==>
      && (n, k.0, k.1) in h.tickets
      && h.tickets[(n, k.0, k.1)].responder == s.pending[k]
      && (n, k.0, k.1) !in h.answered
  }

  ghost predicate RoleOk(c: Cluster, n: NodeId, s: NodeState) {
    && s.id == n && PeersOf(c.ids, n, s.peers)
    && s.nextIndex.Keys <= c.ids - {n} && s.matchIndex.Keys <= c.ids - {n}
    && VotesOk(c.hist, n, s)
    && (s.role == Candidate ==> CandidateOk(c, n, s))
    && (s.role == Leader ==> LeaderOk(c.hist, n, s))
    && PendingOk(c.hist, n, s)
  }

  ghost predicate CommitOk(c: Cluster, s: NodeState) {
    && PrefixCommitted(c, s.currentTerm, s.log, s.commitIndex)
    && PrefixCommitted(c, s.currentTerm, s.log, s.lastApplied)
    && s.commitIndex < |s.log| && s.lastApplied < |s.log|
    && s.db == Replay(map[], s.log[1..s.lastApplied + 1])
  }

  ghost predicate NodeOk(c: Cluster, n: NodeId)
    requires n in c.nodes
  {
    var s := c.nodes[n];
    && RoleOk(c, n, s)
    && LogOk(c.hist.termLog, s.log, s.currentTerm)
    && KeepsAcked(c, n, s.log)
    && CommitOk(c, s)
  }

  // ---------------------------------------------------------------- one packet

  ghost predicate PacketOk(c: Cluster, p: Packet) {
    match p.msg
    case RequestVote(t, cand, li, lt) =>
      && cand in c.nodes && 0 < t <= c.nodes[cand].currentTerm
      && (c.nodes[cand].role == Candidate && c.nodes[cand].currentTerm == t && |c.nodes[cand].log| >= 1 ==>
            li == |c.nodes[cand].log| - 1 && lt == c.nodes[cand].log[li].term)
    case RequestVoteResponse(t, voter, granted) =>
      granted ==> voter in c.ids && (voter, t) in c.hist.votes && c.hist.votes[(voter, t)] == p.dst
    case AppendEntries(t, leader, prev, prevTerm, entries, commit) =>
      && p.dst != leader
      && t > 0 && t in c.hist.leaderOf && c.hist.leaderOf[t] == leader
      && t in c.hist.termLog
      && prev + |entries| < |c.hist.termLog[t]|
      && prevTerm == c.hist.termLog[t][prev].term
      && entries == c.hist.termLog[t][prev + 1..prev + 1 + |entries|]
      && commit <= prev + |entries|
      && PrefixCommitted(c, t, c.hist.termLog[t], commit)
    case AppendEntriesResponse(t, f, success, k) =>
      && f in c.ids && f != p.dst
      && (success ==> Acked(c.hist, f, t, k))
    case _ => true
  }

  // ---------------------------------------------------------------- history

  ghost predicate Elected(c: Cluster, t: nat, q: set<NodeId>)
    requires t in c.hist.leaderOf
  {
    && Quorum(c.ids, q)
    && forall x :: x in q ==> (x, t) in c.hist.votes && c.hist.votes[(x, t)] == c.hist.leaderOf[t]
  }

  ghost predicate TermsOk(c: Cluster) {
    && 0 in c.hist.termLog && c.hist.termLog[0] == [SENTINEL]
    && (forall t :: t in c.hist.leaderOf <==> t in c.hist.termLog && t > 0)
    && (forall t :: t in c.hist.termLog ==> LogOk(c.hist.termLog, c.hist.termLog[t], t))
    && (forall t :: t in c.hist.leaderOf ==> c.hist.leaderOf[t] in c.ids && exists q :: Elected(c, t, q))
  }

  ghost predicate BallotsOk(c: Cluster)
    requires c.nodes.Keys == c.ids
  {
    && (forall k :: k in c.hist.votes ==>
          && k.0 in c.ids && k.1 <= c.nodes[k.0].currentTerm
          && c.hist.votes[k] in c.ids && k.1 <= c.nodes[c.hist.votes[k]].currentTerm)
    && (forall k :: k in c.hist.acks ==>
          && k.0 in c.ids && k.1 <= c.nodes[k.0].currentTerm
          && k.1 in c.hist.termLog && c.hist.acks[k] < |c.hist.termLog[k.1]|)
    && (forall q :: q in c.ids ==> (q, 0) in c.hist.acks)
  }

  /** Leader completeness, in its inductive form. */
  ghost predicate Completeness(c: Cluster) {
    forall t: nat, u: nat, i: nat :: u in c.hist.termLog && t < u && OwnEntry(c.hist, t, i) ==>
      Safe(c, t, i, c.hist.termLog[u])
  }

  /** A standing candidate's log covers whatever its voters acknowledged. */
  ghost predicate VoteCovers(c: Cluster, q: NodeId, u: nat)
    requires (q, u) in c.hist.votes && c.hist.votes[(q, u)] in c.nodes
  {
    var s := c.nodes[c.hist.votes[(q, u)]];
    s.role == Candidate && s.currentTerm == u ==>
      forall t: nat, i: nat :: t < u && OwnEntry(c.hist, t, i) && Acked(c.hist, q, t, i) ==> Safe(c, t, i, s.log)
  }

  ghost predicate VotesCover(c: Cluster) {
    forall k :: k in c.hist.votes ==> c.hist.votes[k] in c.nodes && VoteCovers(c, k.0, k.1)
  }

  ghost predicate TicketsOk(h: History) {
    && (forall k :: k in h.tickets ==>
          && k.2 in h.leaderOf && h.leaderOf[k.2] == k.0
          && k.2 in h.termLog && k.1 < |h.termLog[k.2]|
          && h.termLog[k.2][k.1] == LogEntry(k.2, h.tickets[k].command))
    && h.answered <= h.tickets.Keys
  }

  ghost predicate NodesOk(c: Cluster)
    requires c.nodes.Keys == c.ids
  {
    forall n :: n in c.ids ==> NodeOk(c, n)
  }

  ghost predicate PacketsOk(c: Cluster) {
    forall p :: p in c.net ==> PacketOk(c, p)
  }

  ghost predicate Inv(c: Cluster) {
    && c.nodes.Keys == c.ids
    && TermsOk(c) && BallotsOk(c) && Completeness(c) && VotesCover(c) && TicketsOk(c.hist)
    && NodesOk(c) && PacketsOk(c)
  }
}
