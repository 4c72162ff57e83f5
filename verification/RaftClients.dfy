/** What a client may conclude from an answer, and how a lagging follower is brought up to date. */
module RaftClients {
  import opened Commands
  import opened RaftTypes
  import opened RaftHandlers
  import opened RaftCluster
  import opened RaftInvariants
  import opened RaftFrames
  import opened RaftSteps
  import opened RaftFollower
  import opened RaftPreservation
  import opened RaftSafety

  // ---------------------------------------------------------------- acknowledgements

  predicate IsAck(p: Packet) { p.msg.ClientResponse? && p.msg.note.Applied? }

  /** The request that `p` answers, filed under (index, term). */
  function AckKey(p: Packet): (nat, nat)
    requires IsAck(p)
  {
    (p.msg.note.index, p.msg.term)
  }

  /** `p` tells the client waiting under its key that the entry there is applied, which it is in `after`. */
  predicate AckFrom(s: NodeState, after: NodeState, p: Packet)
    requires IsAck(p)
  {
    var k := AckKey(p);
    && p.msg.success && p.msg.result == None
    && k in s.pending && k !in after.pending && s.pending[k] == RaftClient(p.dst, p.msg.requestId)
    && k.0 <= after.lastApplied && k.0 < |after.log| && after.log[k.0].term == k.1
  }

  lemma ApplyAcks(s: NodeState, p: Packet)
    requires s.commitIndex < |s.log| && p in ApplyCommitted(s).sent
    ensures IsAck(p) && AckFrom(s, ApplyCommitted(s).state, p)
  {
    hide Replay;
  }

  lemma CommitAcks(s: NodeState, p: Packet)
    requires Sane(s) && p in UpdateCommitIndex(s).sent
    ensures IsAck(p) && AckFrom(s, UpdateCommitIndex(s).state, p)
  {
    hide ScanCommit, ApplyCommitted;
    ScanCommitBound(s, |s.log| - 1);
    ApplyAcks(s.(commitIndex := ScanCommit(s, |s.log| - 1)), p);
  }

  lemma AppendAcks(s: NodeState, c: Command, p: Packet)
    requires Sane(s) && s.role == Leader && p in AppendCommand(s, c).sent && IsAck(p)
    ensures AckFrom(s, AppendCommand(s, c).state, p)
  {
    hide UpdateCommitIndex;
    if |s.peers| == 0 {
      CommitAcks(AppendEntry(s, c), p);
    }
  }

  lemma FollowerAcks(s: NodeState, m: Message, p: Packet)
    requires Sane(s) && m.AppendEntries? && p in HandleAppendEntries(s, m).0.sent && IsAck(p)
    ensures AckFrom(s, HandleAppendEntries(s, m).0.state, p)
  {
    hide ApplyCommitted, Reconcile;
    if Accepts(s, m) {
      ApplyAcks(TakeEntries(Follow(s, m).state, m), p);
    }
  }

  lemma AnswerKind(s: NodeState, m: Message)
    requires Sane(s) && m.AppendEntries?
    ensures HandleAppendEntries(s, m).1.AppendEntriesResponse?
  {}

  lemma LeaderAcks(s: NodeState, m: Message, p: Packet)
    requires Sane(s) && m.AppendEntriesResponse? && ResponseInRange(s, m)
    requires p in HandleAppendEntriesResponse(s, m).sent && IsAck(p)
    ensures AckFrom(s, HandleAppendEntriesResponse(s, m).state, p)
  {
    hide UpdateCommitIndex;
    if m.term == s.currentTerm && s.role == Leader && m.success {
      CommitAcks(s.(matchIndex := s.matchIndex[m.followerId := m.matchIndex],
                    nextIndex := s.nextIndex[m.followerId := m.matchIndex + 1]), p);
    }
  }

  /** The answer given within the very call that appended the entry. */
  predicate ImmediateAck(s: NodeState, e: Event, after: NodeState, p: Packet)
    requires IsAck(p)
  {
    && e.Deliver? && e.p.msg.ClientRequest? && s.role == Leader
    && p == Reply(RaftClient(e.p.msg.clientId, e.p.msg.requestId), true, None, Applied(|s.log|), s.currentTerm)
    && |s.log| <= after.lastApplied && (|s.log|, s.currentTerm) !in after.pending
    && s.log + [LogEntry(s.currentTerm, e.p.msg.command)] == after.log
  }

  lemma BeatsAreRequests(s: NodeState, p: Packet)
    requires Sane(s) && s.role == Leader && p in Heartbeats(s)
    ensures p.msg.AppendEntries?
  {}

  lemma ElectionSends(s: NodeState, p: Packet)
    requires Sane(s) && p in StartElection(s).sent
    ensures p.msg.AppendEntries? || p.msg.RequestVote?
  {
    hide Majority, Heartbeats;
    var s' := BecomeCandidate(s);
    if |s'.votesReceived| >= Majority(s') {
      BeatsAreRequests(BecomeLeaderState(s'), p);
    }
  }

  lemma CountingSends(s: NodeState, m: Message, p: Packet)
    requires Sane(s) && m.RequestVoteResponse? && p in HandleVoteResponse(s, m).sent
    ensures !IsAck(p)
  {
    hide Majority, Heartbeats;
    var s' := if m.voteGranted then s.(votesReceived := s.votesReceived + {m.voterId}) else s;
    if m.term == s.currentTerm && s.role == Candidate && |s'.votesReceived| >= Majority(s') {
      BeatsAreRequests(BecomeLeaderState(s'), p);
    }
  }

  lemma StepAcks(s: NodeState, e: Event, p: Packet)
    requires NoPanic(s, e) && p in Transition(s, e).sent && IsAck(p)
    requires s.role == Leader ==> (|s.log|, s.currentTerm) !in s.pending
    ensures AckFrom(s, Transition(s, e).state, p) || ImmediateAck(s, e, Transition(s, e).state, p)
  {
    hide HandleAppendEntries, HandleAppendEntriesResponse, AppendCommand, UpToDate, StartElection, Heartbeats,
      HandleVoteResponse;
    if e.Elect? || (e.Deliver? && e.p.msg.Timeout?) {
      ElectionSends(s, p);
    } else if e.Heartbeat? && s.role == Leader {
      BeatsAreRequests(s, p);
    } else if e.Deliver? {
      var m := e.p.msg;
      if m.RequestVoteResponse? {
        CountingSends(s, m, p);
      } else if m.AppendEntries? {
        AnswerKind(s, m);
        FollowerAcks(s, m, p);
      } else if m.AppendEntriesResponse? {
        LeaderAcks(s, m, p);
      } else if (m.ClientCommand? || m.ClientRequest?) && s.role == Leader {
        AppendFacts(s, m.command);
        if p in AppendCommand(s, m.command).sent {
          AppendAcks(s, m.command, p);
        }
      }
    }
  }

  /** The ticket behind an acknowledgement: filed by this node, unanswered so far, and now answered. */
  ghost predicate UsesTicket(h: History, h': History, s': NodeState, n: NodeId, p: Packet)
    requires IsAck(p)
  {
    var i, t := p.msg.note.index, p.msg.term;
    && (n, i, t) !in h.answered && (n, i, t) in h'.answered
    && (n, i, t) in h'.tickets && h'.tickets[(n, i, t)].responder == RaftClient(p.dst, p.msg.requestId)
    && p.msg.success && p.msg.result == None && i <= s'.lastApplied && i < |s'.log| && s'.log[i].term == t
  }

  lemma RecordsAck(h: History, n: NodeId, s: NodeState, e: Event, s': NodeState, p: Packet)
    requires IsAck(p) && !e.Reboot?
    ensures AckFrom(s, s', p) ==> (n, p.msg.note.index, p.msg.term) in Record(h, n, s, e, s').answered
    ensures ImmediateAck(s, e, s', p) ==>
              var h', k := Record(h, n, s, e, s'), (n, p.msg.note.index, p.msg.term);
              && k in h'.answered && k in h'.tickets
              && h'.tickets[k].responder == RaftClient(p.dst, p.msg.requestId)
  {
    if AckFrom(s, s', p) {
      assert AckKey(p) in s.pending.Keys - s'.pending.Keys;
      assert (n, p.msg.note.index, p.msg.term) in TicketKeys(n, s.pending.Keys - s'.pending.Keys);
    }
    hide TicketKeys, RecordState, AckFrom;
  }

  lemma AckTicket(c: Cluster, e: Event, c': Cluster, n: NodeId, s: NodeState, x: Effect, p: Packet)
    requires c.nodes.Keys == c.ids && !e.Submit? && StepBy(c, e, c') && n == Target(e) && n in c.ids && s == c.nodes[n]
    requires x == Transition(s, e) && p in x.sent && IsAck(p)
    requires Inv(c)
    ensures UsesTicket(c.hist, c'.hist, x.state, n, p)
  {
    hide Inv, Transition, HistOnward, Record, NoPanic;
    var i, t := p.msg.note.index, p.msg.term;
    FileFresh(c, n);
    StepAcks(s, e, p);
    assert !e.Reboot? by { RebootIsSilent(s, e); }
    RecordsAck(c.hist, n, s, e, x.state, p);
    if AckFrom(s, x.state, p) {
      PendingTicket(c, n, (i, t));
      assert Step(c, c');
      StepOnward(c, c');
      TicketStays(c.hist, c'.hist, (n, i, t));
    }
  }

  lemma RebootIsSilent(s: NodeState, e: Event)
    requires NoPanic(s, e)
    ensures e.Reboot? ==> Transition(s, e).sent == {}
  {}

  lemma FileFresh(c: Cluster, n: NodeId)
    requires c.nodes.Keys == c.ids && n in c.ids
    requires Inv(c)
    ensures var s := c.nodes[n];
            s.role == Leader ==>
              (|s.log|, s.currentTerm) !in s.pending && (n, |s.log|, s.currentTerm) !in c.hist.answered
  {
    hide Inv, LeaderOk;
    if c.nodes[n].role == Leader {
      KeyIsFresh(c, n);
      FreshKey(c, n, |c.nodes[n].log|, c.nodes[n].currentTerm);
    }
  }

  lemma PendingTicket(c: Cluster, n: NodeId, k: (nat, nat))
    requires n in c.ids && Inv(c) && k in c.nodes[n].pending
    ensures (n, k.0, k.1) in c.hist.tickets && (n, k.0, k.1) !in c.hist.answered
    ensures c.hist.tickets[(n, k.0, k.1)].responder == c.nodes[n].pending[k]
  {
    hide TermsOk, Completeness, BallotsOk, PacketsOk, VotesCover, NodesOk, CommitOk, KeepsAcked, LeaderOk, CandidateOk,
      LogOk, VotesOk, TicketsOk;
    NodeHolds(c, n);
  }

  lemma TicketStays(h: History, h': History, k: (NodeId, nat, nat))
    requires HistOnward(h, h') && k in h.tickets
    ensures k in h'.tickets && h'.tickets[k] == h.tickets[k]
  {}

  lemma TicketIsEntry(c: Cluster, n: NodeId, i: nat, t: nat)
    requires n in c.ids && Inv(c) && (n, i, t) in c.hist.tickets
    requires i < |c.nodes[n].log| && c.nodes[n].log[i].term == t
    ensures c.nodes[n].log[i] == LogEntry(t, c.hist.tickets[(n, i, t)].command)
  {
    hide TermsOk, Completeness, BallotsOk, PacketsOk, VotesCover, NodesOk, CommitOk, KeepsAcked, RoleOk;
    NodeHolds(c, n);
    var log, T := c.nodes[n].log, c.hist.termLog;
    assert Backed(T, log, i);
    assert log[i] == log[..i + 1][i] == T[t][..i + 1][i] == T[t][i];
  }

  // ---------------------------------------------------------------- tickets are requests

  /** The packet that brought a ticket's write to the node. */
  function RequestOf(n: NodeId, t: Ticket): Packet {
    Packet(n, ClientRequest(t.responder.requestId, t.responder.clientId, t.command))
  }

  /** Every ticket was filed for a request that a client sent to that node. */
  ghost predicate TicketsSent(c: Cluster) {
    forall k :: k in c.hist.tickets ==> RequestOf(k.0, c.hist.tickets[k]) in c.net
  }

  lemma RecordTickets(h: History, n: NodeId, s: NodeState, e: Event, s': NodeState, k: (NodeId, nat, nat))
    requires k in Record(h, n, s, e, s').tickets
    ensures var t := Record(h, n, s, e, s').tickets[k];
            (k in h.tickets && h.tickets[k] == t) || (e.Deliver? && k.0 == n && e.p.msg.ClientRequest? &&
              t == Ticket(RaftClient(e.p.msg.clientId, e.p.msg.requestId), e.p.msg.command))
  {
    var h2 := RecordAnswers(RecordState(h, n, s'), n, s, s');
    KeepTickets(h, n, s, s');
    hide RecordAnswers, AckLevel, Accepts, RecordState, RecordTicket;
    if e.Deliver? && e.p.msg.ClientRequest? {
      OneTicket(h2, n, s, e.p.msg, s', k);
    }
  }

  lemma KeepTickets(h: History, n: NodeId, s: NodeState, s': NodeState)
    ensures RecordState(h, n, s').tickets == h.tickets == RecordAnswers(RecordState(h, n, s'), n, s, s').tickets
  {
    hide TicketKeys;
  }

  lemma OneTicket(h: History, n: NodeId, s: NodeState, m: Message, s': NodeState, k: (NodeId, nat, nat))
    requires m.ClientRequest? && k in RecordTicket(h, n, s, m, s').tickets
    ensures var t := RecordTicket(h, n, s, m, s').tickets[k];
            (k in h.tickets && h.tickets[k] == t)
            || (k.0 == n && t == Ticket(RaftClient(m.clientId, m.requestId), m.command))
  {}

  lemma StepTickets(c: Cluster, c': Cluster)
    requires c.nodes.Keys == c.ids && TicketsSent(c) && Step(c, c')
    ensures TicketsSent(c')
  {
    hide Transition, NoPanic, Record;
    var e :| StepBy(c, e, c');
    if !e.Submit? {
      var n := Target(e);
      var s, x := c.nodes[n], Transition(c.nodes[n], e);
      forall k | k in c'.hist.tickets ensures RequestOf(k.0, c'.hist.tickets[k]) in c'.net {
        RecordTickets(c.hist, n, s, e, x.state, k);
      }
    }
  }

  /** In every state of every run, every ticket answers to a client request that was sent to its node. */
  lemma {:induction false} TicketsAreRequests(cs: seq<Cluster>, i: nat)
    requires Run(cs) && i < |cs|
    ensures TicketsSent(cs[i])
  {
    hide Inv, Step, TicketsSent;
    if i == 0 {
      NoTicketsYet(cs[0]);
    } else {
      TicketsAreRequests(cs, i - 1);
      Reachable(cs, i - 1);
      assert Step(cs[i - 1], cs[i - 1 + 1]);
      StepTickets(cs[i - 1], cs[i]);
    }
  }

  lemma NoTicketsYet(c: Cluster)
    requires Init(c)
    ensures TicketsSent(c)
  {}

  // ---------------------------------------------------------------- what an acknowledgement means

  /**
    Acknowledgements are truthful: when a node tells a client that its write was applied at an index,
    the entry applied there is the very command that client sent to that node in a request.
  */
  lemma AcksAreTruthful(cs: seq<Cluster>, i: nat, e: Event, p: Packet)
    requires Run(cs) && i + 1 < |cs| && !e.Submit? && StepBy(cs[i], e, cs[i + 1])
    requires p in Transition(cs[i].nodes[Target(e)], e).sent && IsAck(p)
    ensures var n := Target(e);
            && n in cs[i + 1].nodes
            && UsesTicket(cs[i].hist, cs[i + 1].hist, cs[i + 1].nodes[n], n, p)
            && var entry := cs[i + 1].nodes[n].log[p.msg.note.index];
               var ticket := cs[i + 1].hist.tickets[(n, p.msg.note.index, p.msg.term)];
               && entry == LogEntry(p.msg.term, ticket.command)
               && Packet(n, ClientRequest(p.msg.requestId, p.dst, entry.command)) in cs[i + 1].net
  {
    hide Inv, Step, Init, Transition, Record, NoPanic;
    var n := Target(e);
    Reachable(cs, i);
    Reachable(cs, i + 1);
    AckTicket(cs[i], e, cs[i + 1], n, cs[i].nodes[n], Transition(cs[i].nodes[n], e), p);
    TicketIsEntry(cs[i + 1], n, p.msg.note.index, p.msg.term);
    TicketsAreRequests(cs, i + 1);
  }

  /**
    A client write is acknowledged at most once: two success replies of one node, in one step or in two, answer two
    writes.
  */
  lemma AcksAreSingle(cs: seq<Cluster>, i: nat, j: nat, e: Event, e': Event, p: Packet, p': Packet)
    requires Run(cs) && i <= j && j + 1 < |cs| && !e.Submit? && !e'.Submit?
    requires StepBy(cs[i], e, cs[i + 1]) && StepBy(cs[j], e', cs[j + 1]) && Target(e) == Target(e')
    requires p in Transition(cs[i].nodes[Target(e)], e).sent && IsAck(p)
    requires p' in Transition(cs[j].nodes[Target(e')], e').sent && IsAck(p')
    requires i < j || p != p'
    ensures AckKey(p) != AckKey(p')
  {
    hide Inv, Step, Init, Transition, Record, NoPanic;
    Reachable(cs, i);
    Reachable(cs, j);
    var n := Target(e);
    AckTicket(cs[i], e, cs[i + 1], n, cs[i].nodes[n], Transition(cs[i].nodes[n], e), p);
    AckTicket(cs[j], e', cs[j + 1], n, cs[j].nodes[n], Transition(cs[j].nodes[n], e'), p');
    if i < j {
      RunOnward(cs, i + 1, j);
    }
  }

  // ---------------------------------------------------------------- answers are final

  predicate IsFailure(p: Packet) { p.msg.ClientResponse? && p.msg.note == LeadershipChanged }

  /** `p` tells a waiting client that leadership was lost, and nobody waits any longer. */
  predicate FailureFrom(s: NodeState, after: NodeState, p: Packet)
    requires IsFailure(p)
  {
    after.pending == map[] && exists k :: k in s.pending && s.pending[k] == RaftClient(p.dst, p.msg.requestId)
  }

  lemma StepDownFailures(s: NodeState, term: nat, p: Packet)
    requires p in StepDown(s, term).sent
    ensures IsFailure(p) && FailureFrom(s, StepDown(s, term).state, p)
  {
    var k :| k in s.pending && p == Reply(s.pending[k], false, None, LeadershipChanged, term);
    assert s.pending[k] == RaftClient(p.dst, p.msg.requestId);
  }

  lemma FollowerFailures(s: NodeState, m: Message, p: Packet)
    requires Sane(s) && m.AppendEntries? && p in HandleAppendEntries(s, m).0.sent && IsFailure(p)
    ensures FailureFrom(s, HandleAppendEntries(s, m).0.state, p)
  {
    hide Reconcile, Replay, FailureFrom;
    if p in Follow(s, m).sent {
      StepDownFailures(s, m.term, p);
      FailureAfter(s, StepDown(s, m.term).state, HandleAppendEntries(s, m).0.state, p);
    }
  }

  lemma FailureAfter(s: NodeState, a: NodeState, b: NodeState, p: Packet)
    requires IsFailure(p) && FailureFrom(s, a, p) && b.pending == map[]
    ensures FailureFrom(s, b, p)
  {}

  predicate MayStepDown(m: Message) { m.RequestVote? || m.RequestVoteResponse? || m.AppendEntriesResponse? }

  lemma ReplyFailures(s: NodeState, m: Message, p: Packet)
    requires CanHandle(s, m) && MayStepDown(m) && p in HandleMessage(s, m).sent && IsFailure(p)
    ensures FailureFrom(s, HandleMessage(s, m).state, p)
  {
    hide Majority, UpToDate, FailureFrom, ScanCommit, Replay;
    StepDownFailures(s, m.term, p);
    FailureAfter(s, StepDown(s, m.term).state, HandleMessage(s, m).state, p);
  }

  lemma AppendSendsNoFailure(s: NodeState, c: Command, p: Packet)
    requires Sane(s) && s.role == Leader && p in AppendCommand(s, c).sent
    ensures !IsFailure(p)
  {
    hide UpdateCommitIndex, Heartbeats;
    if |s.peers| == 0 {
      CommitAcks(AppendEntry(s, c), p);
    } else {
      BeatsAreRequests(AppendEntry(s, c), p);
    }
  }

  lemma OthersSendNoFailure(s: NodeState, e: Event, p: Packet)
    requires NoPanic(s, e) && p in Transition(s, e).sent
    requires e.Deliver? ==> !MayStepDown(e.p.msg) && !e.p.msg.AppendEntries?
    ensures !IsFailure(p)
  {
    hide HandleAppendEntries, HandleAppendEntriesResponse, HandleVoteResponse, HandleRequestVote, StartElection,
      AppendCommand, Heartbeats;
    if e.Elect? || (e.Deliver? && e.p.msg.Timeout?) {
      ElectionSends(s, p);
    } else if e.Heartbeat? && s.role == Leader {
      BeatsAreRequests(s, p);
    } else if e.Deliver? && s.role == Leader && (e.p.msg.ClientCommand? || e.p.msg.ClientRequest?) {
      if p in AppendCommand(s, e.p.msg.command).sent { AppendSendsNoFailure(s, e.p.msg.command, p); }
    }
  }

  /** Only losing leadership sends a failure; it sends one to each waiting client and keeps none waiting. */
  lemma StepFailures(s: NodeState, e: Event, p: Packet)
    requires NoPanic(s, e) && p in Transition(s, e).sent && IsFailure(p)
    ensures FailureFrom(s, Transition(s, e).state, p)
  {
    hide HandleAppendEntries, FailureFrom, HandleVoteResponse, HandleRequestVote, HandleAppendEntriesResponse,
      AppendCommand, StartElection, SubmitWrite, Heartbeats;
    if e.Deliver? && e.p.msg.AppendEntries? {
      AnswerKind(s, e.p.msg);
      FollowerFailures(s, e.p.msg, p);
    } else if e.Deliver? && MayStepDown(e.p.msg) {
      ReplyFailures(s, e.p.msg, p);
    } else {
      OthersSendNoFailure(s, e, p);
    }
  }

  /** The ticket that a reply settles: unanswered before the step, answered after it, and the client's own. */
  ghost predicate Settles(h: History, h': History, n: NodeId, p: Packet, k: (nat, nat))
    requires p.msg.ClientResponse?
  {
    && (n, k.0, k.1) !in h.answered && (n, k.0, k.1) in h'.answered
    && (n, k.0, k.1) in h'.tickets && h'.tickets[(n, k.0, k.1)].responder == RaftClient(p.dst, p.msg.requestId)
  }

  lemma RecordsFailure(h: History, n: NodeId, s: NodeState, e: Event, s': NodeState, k: (nat, nat))
    requires k in s.pending && s'.pending == map[] && !e.Reboot?
    ensures (n, k.0, k.1) in Record(h, n, s, e, s').answered
  {
    assert k in s.pending.Keys - s'.pending.Keys;
    assert (n, k.0, k.1) in TicketKeys(n, s.pending.Keys - s'.pending.Keys);
    hide TicketKeys, RecordState;
  }

  /** Every answer to a write, success or failure, settles one ticket of that client's that was still open. */
  lemma RepliesSettle(cs: seq<Cluster>, i: nat, e: Event, p: Packet) returns (k: (nat, nat))
    requires Run(cs) && i + 1 < |cs| && !e.Submit? && StepBy(cs[i], e, cs[i + 1])
    requires p in Transition(cs[i].nodes[Target(e)], e).sent && (IsAck(p) || IsFailure(p))
    ensures Settles(cs[i].hist, cs[i + 1].hist, Target(e), p, k)
  {
    hide Inv, Step, Init, Transition, Record, NoPanic, HistOnward;
    var n, c, c' := Target(e), cs[i], cs[i + 1];
    var s, x := c.nodes[n], Transition(c.nodes[n], e);
    Reachable(cs, i);
    if IsAck(p) {
      AckTicket(c, e, c', n, s, x, p);
      k := AckKey(p);
    } else {
      StepFailures(s, e, p);
      k :| k in s.pending && s.pending[k] == RaftClient(p.dst, p.msg.requestId);
      assert !e.Reboot? by { RebootIsSilent(s, e); }
      RecordsFailure(c.hist, n, s, e, x.state, k);
      PendingTicket(c, n, k);
      assert Step(c, c');
      StepOnward(c, c');
      TicketStays(c.hist, c'.hist, (n, k.0, k.1));
    }
  }

  /** A settled ticket stays settled: nobody waits on it again, so no later reply can settle it. */
  lemma SettledForGood(cs: seq<Cluster>, i: nat, j: nat, n: NodeId, k: (nat, nat))
    requires Run(cs) && i <= j < |cs| && n in cs[j].nodes && (n, k.0, k.1) in cs[i].hist.answered
    ensures (n, k.0, k.1) in cs[j].hist.answered && k !in cs[j].nodes[n].pending
  {
    hide Inv, Step, Init;
    Reachable(cs, j);
    RunOnward(cs, i, j);
    if k in cs[j].nodes[n].pending {
      PendingTicket(cs[j], n, k);
    }
  }

  // ---------------------------------------------------------------- catching up

  /** One exchange: the leader's request, the follower's answer, the leader's reaction. */
  function Exchange(leader: NodeState, follower: NodeState): (NodeState, NodeState, bool)
    requires CanExchange(leader, follower)
  {
    var (x, r) := HandleAppendEntries(follower, MakeAppendEntries(leader, follower.id));
    (HandleAppendEntriesResponse(leader, r).state, x.state, r.success)
  }

  predicate CanExchange(leader: NodeState, follower: NodeState) {
    && Sane(leader) && Sane(follower) && leader.role == Leader && follower.id in leader.nextIndex
    && 1 <= leader.nextIndex[follower.id] <= |leader.log|
    && follower.currentTerm <= leader.currentTerm
  }

  /** A rejected exchange costs the leader one step back and the follower nothing. */
  lemma RejectedExchange(leader: NodeState, follower: NodeState)
    requires CanExchange(leader, follower) && !Exchange(leader, follower).2
    requires leader.log[0].term == follower.log[0].term
    ensures var (l, f, _) := Exchange(leader, follower);
            && CanExchange(l, f) && l.log == leader.log && f.log == follower.log && f.id == follower.id
            && l.nextIndex[f.id] == leader.nextIndex[f.id] - 1
  {
    hide Reconcile, ApplyCommitted;
  }

  lemma TakenLog(follower: NodeState, m: Message)
    requires Sane(follower) && m.AppendEntries? && HandleAppendEntries(follower, m).1.success
    ensures Accepts(follower, m)
    ensures HandleAppendEntries(follower, m).0.state.log == Reconcile(follower.log, m.prevLogIndex + 1, m.entries)
  {
    hide Replay, Reconcile;
  }

  lemma AcceptedExchange(leader: NodeState, follower: NodeState)
    requires CanExchange(leader, follower) && Exchange(leader, follower).2
    requires Matching(follower.log, leader.log)
    ensures leader.log <= Exchange(leader, follower).1.log
  {
    hide Matching, HandleAppendEntriesResponse, HandleAppendEntries, Reconcile;
    var m := MakeAppendEntries(leader, follower.id);
    assert m.entries == leader.log[m.prevLogIndex + 1..m.prevLogIndex + 1 + |m.entries|];
    TakenLog(follower, m);
    ReconcileLeader(follower.log, leader.log, m.prevLogIndex + 1, m.entries);
    assert leader.log[..|leader.log|] == leader.log;
  }

  /** The state of both after exchanging until the first acceptance; `rounds` counts the rejections. */
  function CatchUp(leader: NodeState, follower: NodeState): (r: (nat, NodeState, NodeState))
    requires CanExchange(leader, follower) && leader.log[0].term == follower.log[0].term
    ensures r.0 < leader.nextIndex[follower.id]
    decreases leader.nextIndex[follower.id]
  {
    var (l, f, ok) := Exchange(leader, follower);
    if ok then (0, l, f)
    else
      RejectedExchange(leader, follower);
      var (rounds, l', f') := CatchUp(l, f);
      (rounds + 1, l', f')
  }

  /**
    Catch-up terminates: after fewer rejections than the leader's log is long, the follower holds all
    of the leader's log. The premises hold of any leader and follower of a run (`LogMatching`).
  */
  lemma {:induction false} CatchUpCompletes(leader: NodeState, follower: NodeState)
    requires CanExchange(leader, follower) && leader.log[0].term == follower.log[0].term
    requires Matching(follower.log, leader.log)
    ensures var (rounds, _, f) := CatchUp(leader, follower);
            rounds < |leader.log| && leader.log <= f.log
    decreases leader.nextIndex[follower.id]
  {
    hide Matching, Exchange;
    var (l, f, ok) := Exchange(leader, follower);
    if ok {
      AcceptedExchange(leader, follower);
    } else {
      RejectedExchange(leader, follower);
      CatchUpCompletes(l, f);
    }
  }

  /** The premises of catch-up hold of any leader and any node that is not ahead of its term, in any run. */
  lemma CatchUpInRun(cs: seq<Cluster>, i: nat, a: NodeId, b: NodeId)
    requires Run(cs) && i < |cs| && a in cs[i].nodes && b in cs[i].nodes && a != b
    requires cs[i].nodes[a].role == Leader && cs[i].nodes[b].currentTerm <= cs[i].nodes[a].currentTerm
    ensures var l, f := cs[i].nodes[a], cs[i].nodes[b];
            && CanExchange(l, f) && l.log[0].term == f.log[0].term && Matching(f.log, l.log)
            && var (rounds, _, f') := CatchUp(l, f); rounds < |l.log| && l.log <= f'.log
  {
    hide Inv, Step, Init, NodeOk, LogOk, Matching, Exchange;
    Reachable(cs, i);
    var l, f := cs[i].nodes[a], cs[i].nodes[b];
    NodeHolds(cs[i], a);
    NodeHolds(cs[i], b);
    NodeSane(cs[i], a);
    NodeSane(cs[i], b);
    PeerKnown(cs[i], a, b);
    StartsAlike(cs[i], a);
    StartsAlike(cs[i], b);
    BackedMatch(cs[i].hist.termLog, f.log, l.log, f.currentTerm, l.currentTerm);
    CatchUpCompletes(l, f);
  }

  lemma PeerKnown(c: Cluster, a: NodeId, b: NodeId)
    requires a in c.nodes && b in c.ids && NodeOk(c, a) && c.nodes[a].role == Leader && a != b
    requires b in c.nodes && NodeOk(c, b)
    ensures var s := c.nodes[a]; b in s.nextIndex && 1 <= s.nextIndex[b] <= |s.log|
    ensures c.nodes[b].id == b
  {
    assert b in SeqSet(c.nodes[a].peers);
  }

  lemma SentinelLives(c: Cluster)
    requires c.nodes.Keys == c.ids && BallotsOk(c)
    ensures !Dead(c, 0, 0)
  {
    if q :| DeadBy(c, 0, 0, q) {
      assert |q| > 0;
    }
  }

  /** Every log begins with the sentinel, which everybody holds, so nothing can have overwritten it. */
  lemma StartsAlike(c: Cluster, n: NodeId)
    requires n in c.ids && c.nodes.Keys == c.ids && Inv(c)
    ensures var s := c.nodes[n]; LogOk(c.hist.termLog, s.log, s.currentTerm) && |s.log| >= 1 && s.log[0].term == 0
  {
    hide PacketsOk, VotesCover, NodesOk, CommitOk, KeepsAcked, RoleOk, Elected, BallotsOk, Dead;
    NodeHolds(c, n);
    SentinelLives(c);
    var s, T := c.nodes[n], c.hist.termLog;
    var t := s.log[0].term;
    assert Backed(T, s.log, 0) && OwnEntry(c.hist, 0, 0);
    if t > 0 {
      assert Safe(c, 0, 0, T[t]);
    }
  }
}
