/** The safety properties of Raft (Figure 3 of the Raft paper), for every run, across nodes and across time. */
module RaftTheorems {
  import opened Commands
  import opened RaftTypes
  import opened RaftHandlers
  import opened RaftCluster
  import opened RaftInvariants
  import opened RaftFrames
  import opened RaftSteps
  import opened RaftLogs
  import opened RaftFollower
  import opened RaftPreservation
  import opened RaftSafety

  /** No assertion, `expect` or index of the source fails, whatever is delivered and whenever. */
  lemma NothingPanics(cs: seq<Cluster>, i: nat, e: Event)
    requires Run(cs) && i < |cs| && Enabled(cs[i], e) && !e.Submit?
    ensures Target(e) in cs[i].nodes && NoPanic(cs[i].nodes[Target(e)], e)
  {
    hide Inv, Step, NoPanic, Init;
    Reachable(cs, i);
    EventInRange(cs[i], e, cs[i].nodes[Target(e)]);
  }

  /** Election safety: two leaders of one term, at any two moments of a run, are the same node. */
  lemma ElectionSafety(cs: seq<Cluster>, i: nat, j: nat, a: NodeId, b: NodeId)
    requires Run(cs) && i <= j < |cs| && a in cs[i].nodes && b in cs[j].nodes
    requires cs[i].nodes[a].role == Leader && cs[j].nodes[b].role == Leader
    requires cs[i].nodes[a].currentTerm == cs[j].nodes[b].currentTerm
    ensures a == b
  {
    hide Inv, Step, Init, LogOk, KeepsAcked, CommitOk, VotesOk, PendingOk, CandidateOk;
    Reachable(cs, i);
    Reachable(cs, j);
    NodeHolds(cs[i], a);
    NodeHolds(cs[j], b);
    RunOnward(cs, i, j);
  }

  /** Log matching: logs that hold the same term at an index are equal up to that index, whenever they are looked at. */
  lemma LogMatching(cs: seq<Cluster>, i: nat, j: nat, a: NodeId, b: NodeId, k: nat)
    requires Run(cs) && i <= j < |cs| && a in cs[i].nodes && b in cs[j].nodes
    requires k < |cs[i].nodes[a].log| && k < |cs[j].nodes[b].log|
    requires cs[i].nodes[a].log[k].term == cs[j].nodes[b].log[k].term
    ensures cs[i].nodes[a].log[..k + 1] == cs[j].nodes[b].log[..k + 1]
  {
    hide Inv, Step, Init, LogOk, RoleOk, KeepsAcked, CommitOk;
    Reachable(cs, i);
    Reachable(cs, j);
    NodeHolds(cs[i], a);
    NodeHolds(cs[j], b);
    RunOnward(cs, i, j);
    var T, T' := cs[i].hist.termLog, cs[j].hist.termLog;
    var s, s' := cs[i].nodes[a], cs[j].nodes[b];
    LogOkPersists(T, T', s.log, s.currentTerm, s.currentTerm);
    BackedMatch(T', s.log, s'.log, s.currentTerm, s'.currentTerm);
  }

  // ---------------------------------------------------------------- commitment is final

  lemma CommittedStays(c: Cluster, c': Cluster, t: nat, k: nat)
    requires Onward(c, c') && Committed(c, t, k)
    ensures Committed(c', t, k)
  {
    var q :| CommittedBy(c, t, k, q);
    assert CommittedBy(c', t, k, q);
  }

  lemma PrefixStays(c: Cluster, c': Cluster, b: nat, log: seq<LogEntry>, k: nat)
    requires Onward(c, c') && PrefixCommitted(c, b, log, k)
    ensures PrefixCommitted(c', b, log, k)
  {
    hide Committed;
    var t, j :| PrefixCommittedBy(c, b, log, k, t, j);
    CommittedStays(c, c', t, j);
    ExtendsPersists(log, c.hist.termLog[t], c'.hist.termLog[t], k);
    assert PrefixCommittedBy(c', b, log, k, t, j);
  }

  /** Two committed prefixes agree wherever both reach. */
  lemma CommittedAgree(c: Cluster, b: nat, log: seq<LogEntry>, i: nat, b': nat, log': seq<LogEntry>, i': nat, k: nat)
    requires Completeness(c) && c.nodes.Keys == c.ids
    requires PrefixCommitted(c, b, log, i) && PrefixCommitted(c, b', log', i') && k <= i && k <= i'
    ensures k < |log| && k < |log'| && log[..k + 1] == log'[..k + 1]
  {
    hide Completeness, Committed;
    var t, j :| PrefixCommittedBy(c, b, log, i, t, j);
    var t', j' :| PrefixCommittedBy(c, b', log', i', t', j');
    if t <= t' {
      WithinTerm(c, log, i, t, j, t', k);
      SamePrefix(log', c.hist.termLog[t'], i', k);
    } else {
      WithinTerm(c, log', i', t', j', t, k);
      SamePrefix(log, c.hist.termLog[t], i, k);
    }
  }

  lemma SamePrefix(a: seq<LogEntry>, b: seq<LogEntry>, i: nat, k: nat)
    requires Extends(a, b, i) && k <= i
    ensures Extends(a, b, k)
  {
    assert a[..k + 1] == a[..i + 1][..k + 1] == b[..i + 1][..k + 1] == b[..k + 1];
  }

  /** A prefix committed in term t is a prefix of every later term's log. */
  lemma WithinTerm(c: Cluster, log: seq<LogEntry>, i: nat, t: nat, j: nat, u: nat, k: nat)
    requires Completeness(c) && c.nodes.Keys == c.ids
    requires t <= u && u in c.hist.termLog && Committed(c, t, j) && i <= j && k <= i
    requires t in c.hist.termLog && Extends(log, c.hist.termLog[t], i)
    ensures Extends(log, c.hist.termLog[u], k)
  {
    hide Completeness, Committed;
    CommittedInLeader(c, t, j, u);
    SamePrefix(log, c.hist.termLog[t], i, k);
    SamePrefix(c.hist.termLog[u], c.hist.termLog[t], j, k);
  }

  /** Index k is beyond recall at this node: committed, or already applied. */
  predicate Settled(s: NodeState, k: nat) { k <= s.commitIndex || k <= s.lastApplied }

  lemma SettledIsCommitted(cs: seq<Cluster>, i: nat, j: nat, n: NodeId, k: nat)
    requires Run(cs) && i <= j < |cs| && n in cs[i].nodes && Settled(cs[i].nodes[n], k)
    ensures exists m :: k <= m && PrefixCommitted(cs[j], cs[i].nodes[n].currentTerm, cs[i].nodes[n].log, m)
  {
    hide Inv, Step, Init, LogOk, RoleOk, KeepsAcked, PrefixCommitted;
    Reachable(cs, i);
    NodeHolds(cs[i], n);
    RunOnward(cs, i, j);
    var s := cs[i].nodes[n];
    var m := if k <= s.commitIndex then s.commitIndex else s.lastApplied;
    PrefixStays(cs[i], cs[j], s.currentTerm, s.log, m);
  }

  /** State machine safety: a settled index holds the same entries on any two nodes, at any two moments. */
  lemma StateMachineSafety(cs: seq<Cluster>, i: nat, j: nat, a: NodeId, b: NodeId, k: nat)
    requires Run(cs) && i <= j < |cs| && a in cs[i].nodes && b in cs[j].nodes
    requires Settled(cs[i].nodes[a], k) && Settled(cs[j].nodes[b], k)
    ensures k < |cs[i].nodes[a].log| && k < |cs[j].nodes[b].log|
    ensures cs[i].nodes[a].log[..k + 1] == cs[j].nodes[b].log[..k + 1]
  {
    hide NodesOk, PacketsOk, TermsOk, BallotsOk, VotesCover, TicketsOk, Completeness, Step, Init, PrefixCommitted;
    Reachable(cs, j);
    SettledIsCommitted(cs, i, j, a, k);
    SettledIsCommitted(cs, j, j, b, k);
    var s, s' := cs[i].nodes[a], cs[j].nodes[b];
    var m :| k <= m && PrefixCommitted(cs[j], s.currentTerm, s.log, m);
    var m' :| k <= m' && PrefixCommitted(cs[j], s'.currentTerm, s'.log, m');
    CommittedAgree(cs[j], s.currentTerm, s.log, m, s'.currentTerm, s'.log, m', k);
  }

  /**
    Leader completeness: what any node knew to be committed is in the log of every later leader of its term or newer.
  */
  lemma LeaderCompleteness(cs: seq<Cluster>, i: nat, j: nat, a: NodeId, leader: NodeId, k: nat)
    requires Run(cs) && i <= j < |cs| && a in cs[i].nodes && leader in cs[j].nodes
    requires Settled(cs[i].nodes[a], k)
    requires cs[j].nodes[leader].role == Leader && cs[i].nodes[a].currentTerm <= cs[j].nodes[leader].currentTerm
    ensures k < |cs[i].nodes[a].log| && k < |cs[j].nodes[leader].log|
    ensures cs[i].nodes[a].log[..k + 1] == cs[j].nodes[leader].log[..k + 1]
  {
    hide NodesOk, PacketsOk, TermsOk, BallotsOk, VotesCover, TicketsOk, Completeness, Step, Init, PrefixCommitted,
      NodeOk;
    Reachable(cs, j);
    NodeHolds(cs[j], leader);
    LeaderFacts(cs[j], leader);
    SettledIsCommitted(cs, i, j, a, k);
    var s, u := cs[i].nodes[a], cs[j].nodes[leader].currentTerm;
    var m :| k <= m && PrefixCommitted(cs[j], s.currentTerm, s.log, m);
    PrefixInLeader(cs[j], s.currentTerm, s.log, m, u);
    SamePrefix(s.log, cs[j].hist.termLog[u], m, k);
  }

  /** The moment a leader's own count passes, the entry is final: every later leader of that term or newer has it. */
  lemma CountedIsFinal(cs: seq<Cluster>, i: nat, j: nat, a: NodeId, leader: NodeId, k: nat)
    requires Run(cs) && i <= j < |cs| && a in cs[i].nodes && leader in cs[j].nodes
    requires cs[i].nodes[a].role == Leader && 0 < k && Committable(cs[i].nodes[a], k)
    requires cs[j].nodes[leader].role == Leader && cs[i].nodes[a].currentTerm <= cs[j].nodes[leader].currentTerm
    ensures k < |cs[j].nodes[leader].log|
    ensures cs[i].nodes[a].log[..k + 1] == cs[j].nodes[leader].log[..k + 1]
  {
    hide NodesOk, PacketsOk, TermsOk, BallotsOk, VotesCover, TicketsOk, Completeness, Step, Init, PrefixCommitted,
      NodeOk, Replicas, Majority;
    Reachable(cs, i);
    Reachable(cs, j);
    NodeHolds(cs[i], a);
    NodeHolds(cs[j], leader);
    LeaderFacts(cs[j], leader);
    CountedIsCommitted(cs[i], a, k);
    RunOnward(cs, i, j);
    var s, u := cs[i].nodes[a], cs[j].nodes[leader].currentTerm;
    PrefixStays(cs[i], cs[j], s.currentTerm, s.log, k);
    PrefixInLeader(cs[j], s.currentTerm, s.log, k, u);
  }

  // ---------------------------------------------------------------- application

  lemma DbIsReplay(cs: seq<Cluster>, i: nat, n: NodeId)
    requires Run(cs) && i < |cs| && n in cs[i].nodes
    ensures var s := cs[i].nodes[n];
            s.lastApplied < |s.log| && s.db == Replay(map[], s.log[1..s.lastApplied + 1])
  {
    hide Inv, Step, Init, LogOk, RoleOk, KeepsAcked, PrefixCommitted, Replay;
    Reachable(cs, i);
    NodeHolds(cs[i], n);
  }

  /**
    Applied entries are permanent: the applied index never goes back, the applied part of the log never
    changes, and the database is exactly those entries executed once each, in order.
  */
  lemma AppliedForever(cs: seq<Cluster>, i: nat, j: nat, n: NodeId)
    requires Run(cs) && i <= j < |cs| && n in cs[i].nodes
    ensures n in cs[j].nodes
    ensures var s, s' := cs[i].nodes[n], cs[j].nodes[n];
            && s.lastApplied <= s'.lastApplied < |s'.log| && s.lastApplied < |s.log|
            && s'.log[..s.lastApplied + 1] == s.log[..s.lastApplied + 1]
            && s'.db == Replay(s.db, s'.log[s.lastApplied + 1..s'.lastApplied + 1])
  {
    hide Inv, Step, Init, HistOnward, Replay;
    Reachable(cs, i);
    Reachable(cs, j);
    RunOnward(cs, i, j);
    ReplicasAgree(cs, i, j, n, n);
    StateMachineSafety(cs, i, j, n, n, cs[i].nodes[n].lastApplied);
  }

  /** Any two databases are the same one at different points: the lagging one can be brought forward by replay. */
  lemma ReplicasAgree(cs: seq<Cluster>, i: nat, j: nat, a: NodeId, b: NodeId)
    requires Run(cs) && i <= j < |cs| && a in cs[i].nodes && b in cs[j].nodes
    requires cs[i].nodes[a].lastApplied <= cs[j].nodes[b].lastApplied
    ensures var s, s' := cs[i].nodes[a], cs[j].nodes[b];
            s'.lastApplied < |s'.log| && s'.db == Replay(s.db, s'.log[s.lastApplied + 1..s'.lastApplied + 1])
  {
    hide Inv, Step, Init, Replay;
    DbIsReplay(cs, i, a);
    DbIsReplay(cs, j, b);
    var s, s' := cs[i].nodes[a], cs[j].nodes[b];
    var k := s.lastApplied;
    StateMachineSafety(cs, i, j, a, b, k);
    assert s.log[1..k + 1] == s.log[..k + 1][1..] == s'.log[..k + 1][1..] == s'.log[1..k + 1];
    ReplayConcat(map[], s'.log[1..k + 1], s'.log[k + 1..s'.lastApplied + 1]);
    assert s'.log[1..k + 1] + s'.log[k + 1..s'.lastApplied + 1] == s'.log[1..s'.lastApplied + 1];
  }

  // ---------------------------------------------------------------- replication requests

  /** Every request ever sent covers its own commit index, so a follower never commits what it did not just check. */
  lemma RequestsCoverCommit(cs: seq<Cluster>, i: nat, p: Packet)
    requires Run(cs) && i < |cs| && p in cs[i].net && p.msg.AppendEntries?
    ensures p.msg.leaderCommit <= p.msg.prevLogIndex + |p.msg.entries|
  {
    hide Inv, Step, Init, PrefixCommitted;
    Reachable(cs, i);
    PacketHolds(cs[i], p);
  }

  /** What a request does to a follower's commit index: it is the request's own, if the request is accepted. */
  lemma RequestCommit(s: NodeState, m: Message)
    requires Sane(s) && m.AppendEntries? && m.leaderCommit <= m.prevLogIndex + |m.entries|
    ensures HandleAppendEntries(s, m).0.state.commitIndex == if Accepts(s, m) then m.leaderCommit else s.commitIndex
  {
    hide Replay;
  }

  lemma CountingKeepsCommit(s: NodeState, m: Message)
    requires Sane(s) && m.AppendEntriesResponse? && ResponseInRange(s, m)
    ensures s.commitIndex <= HandleAppendEntriesResponse(s, m).state.commitIndex
  {
    hide Replay, MakeAppendEntries, ScanCommit;
    if m.success && m.term == s.currentTerm && s.role == Leader {
      var s' := s.(matchIndex := s.matchIndex[m.followerId := m.matchIndex],
                   nextIndex := s.nextIndex[m.followerId := m.matchIndex + 1]);
      ScanCommitBound(s', |s'.log| - 1);
    }
  }

  lemma AppendingKeepsCommit(s: NodeState, c: Command)
    requires Sane(s) && s.role == Leader
    ensures s.commitIndex <= AppendCommand(s, c).state.commitIndex
  {
    hide Replay, Heartbeats, ScanCommit;
    ScanCommitBound(AppendEntry(s, c), |s.log|);
  }

  lemma VotingKeepsCommit(s: NodeState, m: Message)
    requires Sane(s)
    ensures StartElection(s).state.commitIndex == s.commitIndex
    ensures m.RequestVote? ==> HandleRequestVote(s, m).0.state.commitIndex == s.commitIndex
    ensures m.RequestVoteResponse? ==> HandleVoteResponse(s, m).state.commitIndex == s.commitIndex
  {
    hide Majority, Heartbeats, UpToDate;
  }

  lemma OthersKeepCommit(s: NodeState, e: Event)
    requires NoPanic(s, e) && !(e.Deliver? && e.p.msg.AppendEntries?)
    ensures s.commitIndex <= Transition(s, e).state.commitIndex
  {
    hide HandleRequestVote, HandleVoteResponse, HandleAppendEntriesResponse, AppendCommand, StartElection, Heartbeats;
    VotingKeepsCommit(s, if e.Deliver? then e.p.msg else Timeout);
    if e.Deliver? {
      var m := e.p.msg;
      if m.AppendEntriesResponse? { CountingKeepsCommit(s, m); }
      if s.role == Leader && (m.ClientCommand? || m.ClientRequest?) { AppendingKeepsCommit(s, m.command); }
    }
  }

  /** The event delivers to node `n` a request that it accepts and that carries a smaller commit index. */
  predicate LowersCommit(s: NodeState, n: NodeId, e: Event) {
    e.Deliver? && e.p.dst == n && e.p.msg.AppendEntries? && Accepts(s, e.p.msg) && e.p.msg.leaderCommit < s.commitIndex
  }

  /**
    Exactly when a commit index moves back: in a step of a run a node's commit index decreases if and only if the
    step delivers to it an accepted request with a smaller one, and then it becomes the request's.
  */
  lemma CommitIndexDropsIff(cs: seq<Cluster>, i: nat, e: Event, n: NodeId)
    requires Run(cs) && i + 1 < |cs| && StepBy(cs[i], e, cs[i + 1]) && n in cs[i].nodes
    ensures n in cs[i + 1].nodes
    ensures var s, s' := cs[i].nodes[n], cs[i + 1].nodes[n];
            && (s'.commitIndex < s.commitIndex <==> LowersCommit(s, n, e))
            && (LowersCommit(s, n, e) ==> s'.commitIndex == e.p.msg.leaderCommit)
  {
    hide Run, Transition, Record, Accepts, HandleAppendEntries;
    if !e.Submit? && n == Target(e) {
      var s := cs[i].nodes[n];
      if e.Deliver? && e.p.msg.AppendEntries? {
        RequestsCoverCommit(cs, i, e.p);
        RequestCommit(s, e.p.msg);
        DeliveredRequest(s, e);
      } else {
        OthersKeepCommit(s, e);
      }
    }
  }

  lemma DeliveredRequest(s: NodeState, e: Event)
    requires NoPanic(s, e) && e.Deliver? && e.p.msg.AppendEntries?
    ensures Transition(s, e).state == HandleAppendEntries(s, e.p.msg).0.state
  {
    hide HandleAppendEntries;
  }

  /** Every leader can always address every peer, and never claims more than its own log. */
  lemma IndicesInRange(cs: seq<Cluster>, i: nat, n: NodeId, p: NodeId)
    requires Run(cs) && i < |cs| && n in cs[i].nodes && cs[i].nodes[n].role == Leader && p in cs[i].nodes[n].peers
    ensures var s := cs[i].nodes[n];
            && p in s.nextIndex && 1 <= s.nextIndex[p] <= |s.log|
            && (p in s.matchIndex ==> s.matchIndex[p] < |s.log|)
  {
    hide TermsOk, Completeness, VotesCover, TicketsOk, PacketsOk, NodesOk, Step, Init, LogOk, KeepsAcked, CommitOk,
      VotesOk, PendingOk;
    Reachable(cs, i);
    NodeHolds(cs[i], n);
    LogNotEmpty(cs[i], n);
  }

  lemma LogNotEmpty(c: Cluster, n: NodeId)
    requires n in c.nodes && NodeOk(c, n)
    ensures |c.nodes[n].log| >= 1
  {}
}
