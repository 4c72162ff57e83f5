/** Where log entries come from: every command in any log was sent by some client. */
module RaftSubmitted {
  import opened Commands
  import opened RaftTypes
  import opened RaftHandlers
  import opened RaftCluster
  import opened RaftInvariants
  import opened RaftFrames
  import opened RaftSteps
  import opened RaftPreservation
  import opened RaftSafety
  import opened RaftClients

  predicate Carries(p: Packet, c: Command) { (p.msg.ClientCommand? || p.msg.ClientRequest?) && p.msg.command == c }

  /** Some client has sent the command. */
  predicate Submitted(net: set<Packet>, c: Command) { exists p :: p in net && Carries(p, c) }

  // ---------------------------------------------------------------- one step

  lemma ResponseKeepsLog(s: NodeState, m: Message)
    requires Sane(s) && m.AppendEntriesResponse? && ResponseInRange(s, m)
    ensures HandleAppendEntriesResponse(s, m).state.log == s.log
  {
    hide UpdateCommitIndex, MakeAppendEntries;
    if m.success && m.term == s.currentTerm && s.role == Leader {
      CommitSteady(s.(matchIndex := s.matchIndex[m.followerId := m.matchIndex],
                      nextIndex := s.nextIndex[m.followerId := m.matchIndex + 1]));
    }
  }

  lemma ElectionKeepsLog(s: NodeState, m: Message)
    requires Sane(s)
    ensures StartElection(s).state.log == s.log
    ensures m.RequestVoteResponse? ==> HandleVoteResponse(s, m).state.log == s.log
    ensures m.RequestVote? ==> HandleRequestVote(s, m).0.state.log == s.log
    ensures m.AppendEntries? && m.term >= s.currentTerm ==> HandleAppendEntries(s, m).0.state.role == Follower
    ensures m.AppendEntries? && m.term < s.currentTerm ==> HandleAppendEntries(s, m).0.state.log == s.log
  {
    hide Majority, Heartbeats, UpToDate, Replay, Reconcile;
  }

  /** A leader's log after a step is its old one, or that and the command it was handed. */
  lemma LeaderLogGrows(s: NodeState, e: Event)
    requires NoPanic(s, e) && Transition(s, e).state.role == Leader
    ensures var s' := Transition(s, e).state;
            s'.log == s.log
            || (e.Deliver? && (e.p.msg.ClientCommand? || e.p.msg.ClientRequest?)
                && s'.log == s.log + [LogEntry(s.currentTerm, e.p.msg.command)])
  {
    hide StartElection, HandleVoteResponse, HandleRequestVote, HandleAppendEntries, HandleAppendEntriesResponse,
      AppendCommand, Heartbeats;
    if e.Elect? { ElectionKeepsLog(s, Timeout); }
    if e.Deliver? {
      var m := e.p.msg;
      ElectionKeepsLog(s, m);
      if m.AppendEntriesResponse? { ResponseKeepsLog(s, m); }
      if s.role == Leader && (m.ClientCommand? || m.ClientRequest?) { AppendFacts(s, m.command); }
    }
  }

  predicate IsWrite(p: Packet) { p.msg.ClientCommand? || p.msg.ClientRequest? }

  lemma StepDownSends(s: NodeState, term: nat, p: Packet)
    requires p in StepDown(s, term).sent
    ensures !IsWrite(p)
  {}

  lemma VotingSends(s: NodeState, m: Message, p: Packet)
    requires Sane(s) && m.RequestVoteResponse? && p in HandleVoteResponse(s, m).sent
    ensures !IsWrite(p)
  {
    hide Majority, Heartbeats, StepDown;
    var s' := if m.voteGranted then s.(votesReceived := s.votesReceived + {m.voterId}) else s;
    if m.term > s.currentTerm {
      StepDownSends(s, m.term, p);
    } else if m.term == s.currentTerm && s.role == Candidate && |s'.votesReceived| >= Majority(s') {
      BeatsAreRequests(BecomeLeaderState(s'), p);
    }
  }

  lemma GrantingSends(s: NodeState, m: Message, p: Packet)
    requires Sane(s) && m.RequestVote? && p in HandleRequestVote(s, m).0.sent
    ensures !IsWrite(p)
  {
    hide UpToDate, StepDown;
    if m.term > s.currentTerm { StepDownSends(s, m.term, p); }
  }

  lemma FollowingSends(s: NodeState, m: Message, p: Packet)
    requires Sane(s) && m.AppendEntries? && p in HandleAppendEntries(s, m).0.sent
    ensures !IsWrite(p)
  {
    hide ApplyCommitted, Reconcile;
    if p in Follow(s, m).sent {
    } else if Accepts(s, m) {
      ApplyAcks(TakeEntries(Follow(s, m).state, m), p);
    }
  }

  lemma LeadingSends(s: NodeState, m: Message, p: Packet)
    requires Sane(s) && m.AppendEntriesResponse? && ResponseInRange(s, m) && p in HandleAppendEntriesResponse(s, m).sent
    ensures !IsWrite(p)
  {
    hide UpdateCommitIndex, StepDown;
    if m.term > s.currentTerm {
      StepDownSends(s, m.term, p);
    } else if m.term == s.currentTerm && s.role == Leader && m.success {
      CommitAcks(s.(matchIndex := s.matchIndex[m.followerId := m.matchIndex],
                    nextIndex := s.nextIndex[m.followerId := m.matchIndex + 1]), p);
    }
  }

  lemma AppendingSends(s: NodeState, c: Command, p: Packet)
    requires Sane(s) && s.role == Leader && p in AppendCommand(s, c).sent
    ensures !IsWrite(p)
  {
    hide UpdateCommitIndex, Heartbeats;
    if |s.peers| == 0 {
      CommitAcks(AppendEntry(s, c), p);
    } else {
      BeatsAreRequests(AppendEntry(s, c), p);
    }
  }

  /** No node sends a client's write except by passing one on. */
  lemma NoNewWrites(s: NodeState, e: Event, p: Packet)
    requires NoPanic(s, e) && p in Transition(s, e).sent && IsWrite(p)
    ensures e.Deliver? && p.msg == e.p.msg
  {
    hide StartElection, HandleVoteResponse, HandleRequestVote, HandleAppendEntries, HandleAppendEntriesResponse,
      AppendCommand, Heartbeats;
    if e.Elect? || (e.Deliver? && e.p.msg.Timeout?) {
      ElectionSends(s, p);
    } else if e.Heartbeat? && s.role == Leader {
      BeatsAreRequests(s, p);
    } else if e.Deliver? {
      var m := e.p.msg;
      if m.RequestVoteResponse? { VotingSends(s, m, p); }
      if m.RequestVote? && p in HandleRequestVote(s, m).0.sent { GrantingSends(s, m, p); }
      if m.RequestVote? { assert HandleRequestVote(s, m).1.RequestVoteResponse? by { VoteKind(s, m); } }
      if m.AppendEntries? && p in HandleAppendEntries(s, m).0.sent { FollowingSends(s, m, p); }
      if m.AppendEntries? { AnswerKind(s, m); }
      if m.AppendEntriesResponse? { LeadingSends(s, m, p); }
      if s.role == Leader && (m.ClientCommand? || m.ClientRequest?) && p in AppendCommand(s, m.command).sent {
        AppendingSends(s, m.command, p);
      }
    }
  }

  lemma VoteKind(s: NodeState, m: Message)
    requires Sane(s) && m.RequestVote?
    ensures HandleRequestVote(s, m).1.RequestVoteResponse?
  {}

  // ---------------------------------------------------------------- every run

  ghost predicate TermsSubmitted(c: Cluster) {
    forall t, i :: t in c.hist.termLog && 1 <= i < |c.hist.termLog[t]| ==>
      Submitted(c.net, c.hist.termLog[t][i].command)
  }

  lemma LogSubmitted(c: Cluster, log: seq<LogEntry>, bound: nat, i: nat)
    requires TermsSubmitted(c) && LogOk(c.hist.termLog, log, bound) && 1 <= i < |log|
    ensures Submitted(c.net, log[i].command)
  {
    hide Submitted;
    assert Backed(c.hist.termLog, log, i);
    var term := c.hist.termLog[log[i].term];
    assert log[i] == log[..i + 1][i] == term[..i + 1][i] == term[i];
  }

  lemma SubmittedMore(net: set<Packet>, net': set<Packet>, c: Command)
    requires Submitted(net, c) && net <= net'
    ensures Submitted(net', c)
  {}

  lemma RecordTerms(h: History, n: NodeId, s: NodeState, e: Event, s': NodeState)
    ensures Record(h, n, s, e, s').termLog ==
            if s'.role == Leader then h.termLog[s'.currentTerm := s'.log] else h.termLog
  {
    var h1 := RecordState(h, n, s');
    var h2 := RecordAnswers(h1, n, s, s');
    assert h2.termLog == h1.termLog by { AnswersKeepTerms(h1, n, s, s'); }
    hide RecordAnswers, RecordTicket, RecordAck, Accepts;
    if e.Deliver? && e.p.msg.AppendEntries? {
      AcksKeepTerms(h2, n, e.p.msg.term, e.p.msg.prevLogIndex + |e.p.msg.entries|);
    } else if e.Deliver? && e.p.msg.ClientRequest? {
      TicketsKeepTerms(h2, n, s, e.p.msg, s');
    }
  }

  lemma AnswersKeepTerms(h: History, n: NodeId, s: NodeState, s': NodeState)
    ensures RecordAnswers(h, n, s, s').termLog == h.termLog
  {
    hide TicketKeys;
  }

  lemma AcksKeepTerms(h: History, n: NodeId, t: nat, upTo: nat)
    ensures RecordAck(h, n, t, upTo).termLog == h.termLog
  {}

  lemma TicketsKeepTerms(h: History, n: NodeId, s: NodeState, m: Message, s': NodeState)
    requires m.ClientRequest?
    ensures RecordTicket(h, n, s, m, s').termLog == h.termLog
  {}

  lemma StepSubmitted(c: Cluster, e: Event, c': Cluster)
    requires c.nodes.Keys == c.ids && StepBy(c, e, c') && TermsSubmitted(c)
    requires Inv(c)
    ensures TermsSubmitted(c')
  {
    hide Inv, Transition, NoPanic, Record, Submitted, LogOk, RoleOk, CommitOk, KeepsAcked;
    if !e.Submit? {
      var n := Target(e);
      var s, x := c.nodes[n], Transition(c.nodes[n], e);
      NodeHolds(c, n);
      RecordTerms(c.hist, n, s, e, x.state);
      if x.state.role == Leader { LeaderLogGrows(s, e); }
      forall t, i | t in c'.hist.termLog && 1 <= i < |c'.hist.termLog[t]|
        ensures Submitted(c'.net, c'.hist.termLog[t][i].command)
      {
        if x.state.role == Leader && t == x.state.currentTerm {
          if i < |s.log| {
            LogSubmitted(c, s.log, s.currentTerm, i);
            SubmittedMore(c.net, c'.net, s.log[i].command);
          } else {
            assert Submitted(c'.net, e.p.msg.command) by { ByDelivery(c'.net, e.p); }
          }
        } else {
          SubmittedMore(c.net, c'.net, c.hist.termLog[t][i].command);
        }
      }
    } else {
      forall t, i | t in c'.hist.termLog && 1 <= i < |c'.hist.termLog[t]|
        ensures Submitted(c'.net, c'.hist.termLog[t][i].command)
      {
        SubmittedMore(c.net, c'.net, c.hist.termLog[t][i].command);
      }
    }
  }

  lemma ByDelivery(net: set<Packet>, p: Packet)
    requires p in net && (p.msg.ClientCommand? || p.msg.ClientRequest?)
    ensures Submitted(net, p.msg.command)
  {
    assert Carries(p, p.msg.command);
  }

  lemma {:induction false} RunSubmitted(cs: seq<Cluster>, i: nat)
    requires Run(cs) && i < |cs|
    ensures TermsSubmitted(cs[i])
  {
    hide Inv, StepBy, Submitted;
    if i > 0 {
      RunSubmitted(cs, i - 1);
      Reachable(cs, i - 1);
      assert Step(cs[i - 1], cs[i - 1 + 1]);
      var e :| StepBy(cs[i - 1], e, cs[i]);
      StepSubmitted(cs[i - 1], e, cs[i]);
    }
  }

  /** In every state of every run, each command in a log was sent by some client. */
  lemma EntriesAreSubmitted(cs: seq<Cluster>, i: nat, n: NodeId, k: nat)
    requires Run(cs) && i < |cs| && n in cs[i].nodes && 1 <= k < |cs[i].nodes[n].log|
    ensures Submitted(cs[i].net, cs[i].nodes[n].log[k].command)
  {
    hide Inv, Step, Init, Submitted, LogOk, RoleOk, CommitOk, KeepsAcked, TermsSubmitted;
    RunSubmitted(cs, i);
    Reachable(cs, i);
    NodeHolds(cs[i], n);
    LogSubmitted(cs[i], cs[i].nodes[n].log, cs[i].nodes[n].currentTerm, k);
  }

  /** A step puts no client's write into the network but one that a client submits. */
  lemma StepWrites(c: Cluster, e: Event, c': Cluster, p: Packet)
    requires StepBy(c, e, c') && p in c'.net && (p.msg.ClientCommand? || p.msg.ClientRequest?)
    ensures Submitted(c.net, p.msg.command) || (e.Submit? && p == e.p)
  {
    hide Transition, NoPanic, Record, Submitted;
    if p in c.net {
      ByDelivery(c.net, p);
    } else if !e.Submit? {
      NoNewWrites(c.nodes[Target(e)], e, p);
      ByDelivery(c.net, e.p);
    }
  }
}
