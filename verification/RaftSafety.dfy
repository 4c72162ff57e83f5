/** The safety theorems, for every run of the cluster. */
module RaftSafety {
  import opened Commands
  import opened RaftTypes
  import opened RaftHandlers
  import opened RaftCluster
  import opened RaftInvariants
  import opened RaftFrames
  import opened RaftSteps
  import opened RaftBallots
  import opened RaftLogs
  import opened RaftFollower
  import opened RaftPreservation

  // ---------------------------------------------------------------- the invariant holds in every reachable state

  lemma InitTerms(c: Cluster)
    requires Init(c)
    ensures TermsOk(c) && BallotsOk(c) && Completeness(c) && VotesCover(c) && TicketsOk(c.hist)
  {}

  lemma InitCommitted(c: Cluster, log: seq<LogEntry>)
    requires Init(c) && c.ids != {} && log == [SENTINEL]
    ensures PrefixCommitted(c, 0, log, 0)
  {
    assert OwnEntry(c.hist, 0, 0) && forall x :: x in c.ids ==> Acked(c.hist, x, 0, 0);
    assert |c.ids| > 0;
    assert CommittedBy(c, 0, 0, c.ids);
    assert PrefixCommittedBy(c, 0, log, 0, 0, 0);
  }

  lemma InitNode(c: Cluster, n: NodeId)
    requires Init(c) && n in c.ids
    ensures NodeOk(c, n)
  {
    hide PrefixCommitted, Dead;
    var s := c.nodes[n];
    assert LogOk(c.hist.termLog, s.log, 0);
    InitCommitted(c, s.log);
  }

  lemma InitInv(c: Cluster)
    requires Init(c)
    ensures Inv(c)
  {
    hide TermsOk, BallotsOk, Completeness, VotesCover, TicketsOk, NodeOk;
    InitTerms(c);
    forall n | n in c.ids ensures NodeOk(c, n) {
      InitNode(c, n);
    }
  }

  lemma SameMembers(c: Cluster, c': Cluster)
    requires c.nodes.Keys == c.ids && Step(c, c')
    ensures c'.ids == c.ids && c'.nodes.Keys == c.ids
  {
    var e :| StepBy(c, e, c');
    hide Transition, Record, NoPanic;
  }

  lemma {:induction false} Reachable(cs: seq<Cluster>, i: nat)
    requires Run(cs) && i < |cs|
    ensures cs[i].ids == cs[0].ids && cs[i].nodes.Keys == cs[i].ids && Inv(cs[i])
  {
    hide Inv, Step;
    if i == 0 {
      InitInv(cs[0]);
    } else {
      Reachable(cs, i - 1);
      assert Step(cs[i - 1], cs[i - 1 + 1]);
      SameMembers(cs[i - 1], cs[i]);
      OneStep(cs[i - 1], cs[i]);
    }
  }

  lemma OneStep(c: Cluster, c': Cluster)
    requires c.nodes.Keys == c.ids && Step(c, c')
    requires Inv(c)
    ensures Inv(c')
  {
    hide Inv, StepBy;
    var e :| StepBy(c, e, c');
    StepPreserves(c, e, c');
  }

  // ---------------------------------------------------------------- what only grows

  /** Terms, applied indices and the history never go back. (A commit index may: see `CommitIndexCanDrop`.) */
  ghost predicate Onward(c: Cluster, c': Cluster) {
    && c'.ids == c.ids && c.nodes.Keys == c.ids == c'.nodes.Keys
    && (forall n :: n in c.ids ==>
          c.nodes[n].currentTerm <= c'.nodes[n].currentTerm && c.nodes[n].lastApplied <= c'.nodes[n].lastApplied)
    && HistOnward(c.hist, c'.hist)
  }

  ghost predicate HistOnward(h: History, h': History) {
    && (forall t :: t in h.termLog ==> t in h'.termLog && h.termLog[t] <= h'.termLog[t])
    && (forall t :: t in h.leaderOf ==> t in h'.leaderOf && h'.leaderOf[t] == h.leaderOf[t])
    && (forall k :: k in h.acks ==> k in h'.acks && h.acks[k] <= h'.acks[k])
    && (forall k :: k in h.tickets ==> k in h'.tickets && h'.tickets[k] == h.tickets[k])
    && h.answered <= h'.answered
  }

  lemma HistOnwardTrans(a: History, b: History, d: History)
    requires HistOnward(a, b) && HistOnward(b, d)
    ensures HistOnward(a, d)
  {}

  lemma OnwardTrans(a: Cluster, b: Cluster, d: Cluster)
    requires Onward(a, b) && Onward(b, d)
    ensures Onward(a, d)
  {
    HistOnwardTrans(a.hist, b.hist, d.hist);
    hide HistOnward;
  }

  /** What no handler but an election does: take the lead, or lose applied entries or terms. */
  predicate Steady(s: NodeState, s': NodeState) {
    && s.currentTerm <= s'.currentTerm && s.lastApplied <= s'.lastApplied
    && (s'.role == Leader ==> s.role == Leader && s'.currentTerm == s.currentTerm && s.log <= s'.log)
  }

  lemma CommitSteady(s: NodeState)
    requires Sane(s)
    ensures Steady(s, UpdateCommitIndex(s).state)
    ensures UpdateCommitIndex(s).state.log == s.log
  {
    hide ScanCommit, Replay;
  }

  lemma AppendSteady(s: NodeState, c: Command, r: Responder)
    requires Sane(s)
    ensures s.role == Leader ==> Steady(s, AppendCommand(s, c).state)
    ensures Steady(s, SubmitWrite(s, c, r).state)
  {
    hide UpdateCommitIndex, Heartbeats;
    if s.role == Leader && |s.peers| == 0 {
      CommitSteady(AppendEntry(s, c));
      assert AppendEntry(s, c).lastApplied == s.lastApplied;
    }
  }

  lemma ResponseSteady(s: NodeState, m: Message)
    requires Sane(s) && m.AppendEntriesResponse? && ResponseInRange(s, m)
    ensures Steady(s, HandleAppendEntriesResponse(s, m).state)
  {
    hide UpdateCommitIndex, MakeAppendEntries;
    if m.success && m.term == s.currentTerm && s.role == Leader {
      CommitSteady(s.(matchIndex := s.matchIndex[m.followerId := m.matchIndex],
                      nextIndex := s.nextIndex[m.followerId := m.matchIndex + 1]));
    }
  }

  lemma RequestSteady(s: NodeState, m: Message)
    requires Sane(s)
    ensures m.AppendEntries? ==> Steady(s, HandleAppendEntries(s, m).0.state)
    ensures m.RequestVote? ==> Steady(s, HandleRequestVote(s, m).0.state)
  {
    hide UpToDate, Reconcile, Replay;
  }

  predicate Elects(e: Event) {
    e.Elect? || (e.Deliver? && (e.p.msg.Timeout? || e.p.msg.RequestVoteResponse?))
  }

  lemma OthersSteady(s: NodeState, e: Event)
    requires NoPanic(s, e) && !Elects(e)
    ensures Steady(s, Transition(s, e).state)
  {
    hide HandleRequestVote, HandleAppendEntries, HandleAppendEntriesResponse, AppendCommand, SubmitWrite, Heartbeats,
      Steady;
    SelfSteady(s);
    if e.Deliver? {
      var m := e.p.msg;
      RequestSteady(s, m);
      if m.AppendEntriesResponse? { ResponseSteady(s, m); }
      if m.ClientCommand? { AppendSteady(s, m.command, RaftClient(s.id, 0)); }
      if m.ClientRequest? { AppendSteady(s, m.command, RaftClient(m.clientId, m.requestId)); }
    }
  }

  lemma SelfSteady(s: NodeState)
    ensures Steady(s, s) && Steady(s, Restart(s))
  {}

  lemma AppliedOnward(s: NodeState, e: Event)
    requires NoPanic(s, e)
    ensures var s' := Transition(s, e).state;
            s.currentTerm <= s'.currentTerm && s.lastApplied <= s'.lastApplied
  {
    hide HandleRequestVote, HandleAppendEntries, HandleAppendEntriesResponse, AppendCommand, SubmitWrite, Heartbeats,
      Majority;
    if !Elects(e) {
      OthersSteady(s, e);
    }
  }

  lemma ElectedIsFirst(c: Cluster, n: NodeId)
    requires c.nodes.Keys == c.ids && n in c.ids && Sane(c.nodes[n]) && StartElection(c.nodes[n]).state.role == Leader
    requires Inv(c)
    ensures var u := c.nodes[n].currentTerm + 1;
            u !in c.hist.termLog && u !in c.hist.leaderOf && (n, u) !in c.hist.acks
  {
    hide Inv, Heartbeats, Majority;
    CandidacyMove(c, n);
    var s1 := BecomeCandidate(c.nodes[n]);
    WinnerIsFirst(Move(c, n, s1, {}, CastVote(c.hist, n, s1.currentTerm, n)), n);
  }

  lemma CountedIsFirst(c: Cluster, n: NodeId, p: Packet)
    requires c.nodes.Keys == c.ids && n in c.ids && Sane(c.nodes[n]) && p in c.net && p.dst == n
    requires p.msg.RequestVoteResponse? && HandleVoteResponse(c.nodes[n], p.msg).state.role == Leader
             && c.nodes[n].role != Leader
    requires Inv(c)
    ensures var u := c.nodes[n].currentTerm;
            u !in c.hist.termLog && u !in c.hist.leaderOf && (n, u) !in c.hist.acks
  {
    hide Inv, Heartbeats, Majority;
    var s := c.nodes[n];
    if p.msg.voteGranted {
      CollectVoteMove(c, n, p);
      WinnerIsFirst(Move(c, n, s.(votesReceived := s.votesReceived + {p.msg.voterId}), {}, c.hist), n);
    } else {
      WinnerIsFirst(c, n);
    }
  }

  lemma ElectionTerms(s: NodeState, m: Message)
    requires Sane(s)
    ensures StartElection(s).state.currentTerm == s.currentTerm + 1
    ensures m.RequestVoteResponse? ==>
              var s' := HandleVoteResponse(s, m).state;
              s'.role == Leader ==> s'.currentTerm == s.currentTerm && s'.log == s.log
  {
    hide Heartbeats, Majority;
  }

  /** A node that just became leader leads a term nobody led before. */
  lemma NewLeaderIsFirst(c: Cluster, n: NodeId, e: Event, s: NodeState, s': NodeState)
    requires c.nodes.Keys == c.ids && Enabled(c, e) && !e.Submit? && n == Target(e) && n in c.ids && s == c.nodes[n]
    requires NoPanic(s, e) && s' == Transition(s, e).state && s'.role == Leader
    requires Inv(c)
    ensures (s.role == Leader && s'.currentTerm == s.currentTerm && s.log <= s'.log)
            || (s'.currentTerm !in c.hist.termLog && s'.currentTerm !in c.hist.leaderOf &&
                (n, s'.currentTerm) !in c.hist.acks)
  {
    hide Inv, HandleRequestVote, HandleAppendEntries, HandleAppendEntriesResponse, AppendCommand, SubmitWrite,
      StartElection, HandleVoteResponse, Heartbeats;
    ElectionTerms(s, if e.Deliver? then e.p.msg else Timeout);
    if !Elects(e) {
      OthersSteady(s, e);
    } else if e.Elect? || e.p.msg.Timeout? {
      ElectedIsFirst(c, n);
    } else if s.role != Leader {
      CountedIsFirst(c, n, e.p);
    }
  }

  lemma WinnerIsFirst(c: Cluster, n: NodeId)
    requires c.nodes.Keys == c.ids && n in c.ids && c.nodes[n].role == Candidate && |c.nodes[n].log| >= 1
    requires |c.nodes[n].votesReceived| >= Majority(c.nodes[n])
    requires Inv(c)
    ensures var u := c.nodes[n].currentTerm;
            u !in c.hist.termLog && u !in c.hist.leaderOf && (n, u) !in c.hist.acks
  {
    hide NodeOk, TermsOk, Completeness, BallotsOk, TicketsOk, PacketsOk, VotesCover, NodesOk, Majority, CandidateOk,
      Quorum, LogOk;
    NodeHolds(c, n);
    VotesAreVoters(c, n);
    MajorityIsQuorum(c, n, c.nodes[n], c.nodes[n].votesReceived);
    CandidateFacts(c, n);
    TermIsOpen(c, n);
  }

  /** The leader's term is new to the history, or is its own and its log has only grown. */
  predicate LeadsOn(h: History, n: NodeId, s: NodeState) {
    var u := s.currentTerm;
    || (u !in h.termLog && u !in h.leaderOf && (n, u) !in h.acks)
    || (u in h.termLog && h.termLog[u] <= s.log && u in h.leaderOf && h.leaderOf[u] == n &&
        (n, u) in h.acks && h.acks[(n, u)] < |h.termLog[u]|)
  }

  lemma RecordStateOnward(h: History, n: NodeId, s: NodeState)
    requires s.role == Leader ==> LeadsOn(h, n, s)
    ensures HistOnward(h, RecordState(h, n, s)) && RecordState(h, n, s).tickets == h.tickets
  {}

  lemma AnswersOnward(h: History, n: NodeId, s: NodeState, s': NodeState)
    ensures HistOnward(h, RecordAnswers(h, n, s, s')) && RecordAnswers(h, n, s, s').tickets == h.tickets
  {
    hide TicketKeys;
  }

  lemma AckOnward(h: History, n: NodeId, t: nat, k: nat)
    ensures HistOnward(h, RecordAck(h, n, t, k))
  {}

  lemma TicketOnward(h: History, n: NodeId, s: NodeState, m: Message, s': NodeState)
    requires m.ClientRequest? && (s.role == Leader ==> (n, |s.log|, s.currentTerm) !in h.tickets)
    ensures HistOnward(h, RecordTicket(h, n, s, m, s'))
  {}

  lemma RecordOnward(h: History, n: NodeId, s: NodeState, e: Event, s': NodeState)
    requires s'.role == Leader ==> LeadsOn(h, n, s')
    requires s.role == Leader ==> (n, |s.log|, s.currentTerm) !in h.tickets
    ensures HistOnward(h, Record(h, n, s, e, s'))
  {
    hide HistOnward, RecordState, RecordAck, RecordTicket, Accepts, RecordAnswers;
    var h1 := RecordState(h, n, s');
    RecordStateOnward(h, n, s');
    if !e.Reboot? {
      var h2 := RecordAnswers(h1, n, s, s');
      AnswersOnward(h1, n, s, s');
      HistOnwardTrans(h, h1, h2);
      SameHistory(h2);
      if e.Deliver? && e.p.msg.AppendEntries? {
        AckOnward(h2, n, e.p.msg.term, e.p.msg.prevLogIndex + |e.p.msg.entries|);
      } else if e.Deliver? && e.p.msg.ClientRequest? {
        TicketOnward(h2, n, s, e.p.msg, s');
      }
      HistOnwardTrans(h, h2, Record(h, n, s, e, s'));
    }
  }

  lemma KeyIsFresh(c: Cluster, n: NodeId)
    requires c.nodes.Keys == c.ids && n in c.ids && c.nodes[n].role == Leader
    requires Inv(c)
    ensures LeaderOk(c.hist, n, c.nodes[n]) && |c.nodes[n].log| >= 1
    ensures (n, |c.nodes[n].log|, c.nodes[n].currentTerm) !in c.hist.tickets
  {
    hide NodeOk, TermsOk, Completeness, BallotsOk, PacketsOk, VotesCover, NodesOk;
    NodeHolds(c, n);
    LeaderFacts(c, n);
  }

  lemma StepOnward(c: Cluster, c': Cluster)
    requires c.nodes.Keys == c.ids && Step(c, c')
    requires Inv(c)
    ensures Onward(c, c')
  {
    hide Inv, Transition, Record, HistOnward, NoPanic, LeaderOk;
    var e :| StepBy(c, e, c');
    if !e.Submit? {
      var n := Target(e);
      var s, s' := c.nodes[n], Transition(c.nodes[n], e).state;
      AppliedOnward(s, e);
      if s.role == Leader {
        KeyIsFresh(c, n);
      }
      StepRecordOnward(c, n, e, s, s');
    } else {
      SameHistory(c.hist);
    }
  }

  lemma SameHistory(h: History)
    ensures HistOnward(h, h)
  {}

  lemma StepRecordOnward(c: Cluster, n: NodeId, e: Event, s: NodeState, s': NodeState)
    requires c.nodes.Keys == c.ids && Enabled(c, e) && !e.Submit? && n == Target(e) && n in c.ids && s == c.nodes[n]
    requires NoPanic(s, e) && s' == Transition(s, e).state
    requires s.role == Leader ==>
               LeaderOk(c.hist, n, s) && |s.log| >= 1 && (n, |s.log|, s.currentTerm) !in c.hist.tickets
    requires Inv(c)
    ensures HistOnward(c.hist, Record(c.hist, n, s, e, s'))
  {
    hide Inv, Transition, HistOnward, NoPanic, Record;
    if s'.role == Leader {
      NewLeaderIsFirst(c, n, e, s, s');
    }
    RecordOnward(c.hist, n, s, e, s');
  }

  lemma {:induction false} RunOnward(cs: seq<Cluster>, i: nat, j: nat)
    requires Run(cs) && i <= j < |cs|
    ensures Onward(cs[i], cs[j])
    decreases j
  {
    hide Inv, Step, HistOnward, Init;
    Reachable(cs, j);
    if i == j {
      SameHistory(cs[i].hist);
    } else {
      RunOnward(cs, i, j - 1);
      Reachable(cs, j - 1);
      assert Step(cs[j - 1], cs[j - 1 + 1]);
      StepOnward(cs[j - 1], cs[j]);
      OnwardTrans(cs[i], cs[j - 1], cs[j]);
    }
  }
}
