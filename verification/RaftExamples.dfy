/**
  A run of two nodes that commit one write, and two things it leads to: an early heartbeat that arrives late
  sets the follower's commit index back, and a committed NaN makes the simulator's check report a violation.
*/
module RaftExamples {
  import opened Commands
  import opened RaftTypes
  import opened RaftHandlers
  import opened RaftCluster
  import opened RaftTheorems
  import opened RaftRuns
  import opened SimulatorChecks
  import opened ByteForms

  const A := NodeId(1)
  const B := NodeId(2)

  function Written(w: Command): LogEntry { LogEntry(1, w) }

  /** The run so far ends with these two node states, and at least these packets have been sent. */
  ghost predicate At(cs: seq<Cluster>, a: NodeState, b: NodeState, net: set<Packet>) {
    && |cs| > 0 && Run(cs) && cs[|cs| - 1].ids == {A, B}
    && cs[|cs| - 1].nodes == map[A := a, B := b] && net <= cs[|cs| - 1].net
  }

  lemma Start() returns (cs: seq<Cluster>)
    ensures At(cs, Fresh(A, [B]), Fresh(B, [A]), {})
  {
    var nodes := map[A := Fresh(A, [B]), B := Fresh(B, [A])];
    var ids := {A, B};
    var c := Cluster(ids, nodes, {},
                     History(map[0 := [SENTINEL]], map[], map[], map q | q in ids :: (q, 0) := 0, map[], {}));
    assert SeqSet([B]) == ids - {A} && SeqSet([A]) == ids - {B};
    cs := [c];
  }

  /** Node A, or node B, takes a step. */
  lemma Go(cs: seq<Cluster>, e: Event, a: NodeState, b: NodeState, net: set<Packet>,
           x: Effect) returns (cs': seq<Cluster>)
    requires At(cs, a, b, net) && !e.Submit? && Target(e) in {A, B} && (e.Deliver? ==> e.p in net)
    requires NoPanic(if Target(e) == A then a else b, e) && x == Transition(if Target(e) == A then a else b, e)
    ensures At(cs', if Target(e) == A then x.state else a, if Target(e) == A then b else x.state, net + x.sent)
    ensures |cs'| == |cs| + 1 && cs'[|cs| - 1] == cs[|cs| - 1] && StepBy(cs[|cs| - 1], e, cs'[|cs|])
  {
    hide Run, Transition, NoPanic, StepBy;
    var s := if Target(e) == A then a else b;
    var c' := Extend(cs, e, s);
    cs' := cs + [c'];
  }

  lemma Ask(cs: seq<Cluster>, a: NodeState, b: NodeState, net: set<Packet>, p: Packet) returns (cs': seq<Cluster>)
    requires At(cs, a, b, net) && IsClientMessage(p.msg)
    ensures At(cs', a, b, net + {p})
  {
    hide Run;
    var c' := ExtendSubmit(cs, p);
    cs' := cs + [c'];
  }

  // ---------------------------------------------------------------- what each step does

  const VOTE_REQUEST := Packet(B, RequestVote(1, A, 0, 0))
  const VOTE := Packet(A, RequestVoteResponse(1, B, true))
  const EARLY := Packet(B, AppendEntries(1, A, 0, 0, [], 0))
  const TAKEN := Packet(A, AppendEntriesResponse(1, B, true, 1))
  const LATER := Packet(B, AppendEntries(1, A, 1, 1, [], 1))

  function Request(w: Command): Packet { Packet(A, ClientCommand(w)) }

  function First(w: Command): Packet { Packet(B, AppendEntries(1, A, 0, 0, [Written(w)], 0)) }
  lemma Stands() returns (x: Effect)
    ensures NoPanic(Fresh(A, [B]), Elect(A)) && x == Transition(Fresh(A, [B]), Elect(A))
    ensures x.state == BecomeCandidate(Fresh(A, [B])) && VOTE_REQUEST in x.sent
  {
    var s := BecomeCandidate(Fresh(A, [B]));
    x := Transition(Fresh(A, [B]), Elect(A));
    assert B in s.peers && VoteRequest(s) == VOTE_REQUEST.msg;
  }

  lemma Grants() returns (x: Effect)
    ensures NoPanic(Fresh(B, [A]), Deliver(VOTE_REQUEST)) && x == Transition(Fresh(B, [A]), Deliver(VOTE_REQUEST))
    ensures var s := x.state;
            && s.currentTerm == 1 && s.log == [SENTINEL] && s.commitIndex == 0 && s.lastApplied == 0 && s.id == B
            && s.role == Follower && VOTE in x.sent
  {
    x := Transition(Fresh(B, [A]), Deliver(VOTE_REQUEST));
  }

  predicate Leading(s: NodeState, log: seq<LogEntry>, next: nat, commit: nat) {
    && s.role == Leader && s.currentTerm == 1 && s.id == A && s.peers == [B] && s.log == log
    && s.nextIndex == map[B := next] && s.commitIndex == commit && s.lastApplied == commit
  }

  lemma Wins(a: NodeState) returns (x: Effect)
    requires a == BecomeCandidate(Fresh(A, [B]))
    ensures NoPanic(a, Deliver(VOTE)) && x == Transition(a, Deliver(VOTE))
    ensures Leading(x.state, [SENTINEL], 1, 0) && x.state.matchIndex == map[B := 0] && EARLY in x.sent
  {
    assert {A} + {B} == {A, B} && |{A, B}| == 2;
    x := Transition(a, Deliver(VOTE));
    assert x.state.nextIndex == map[B := 1] && x.state.matchIndex == map[B := 0];
    assert B in a.peers;
    assert MakeAppendEntries(x.state, B) == EARLY.msg;
  }

  lemma Appends(w: Command, a: NodeState) returns (x: Effect)
    requires Leading(a, [SENTINEL], 1, 0) && a.matchIndex == map[B := 0]
    ensures NoPanic(a, Deliver(Request(w))) && x == Transition(a, Deliver(Request(w)))
    ensures Leading(x.state, [SENTINEL, Written(w)], 1, 0) && x.state.matchIndex == map[B := 0] && First(w) in x.sent
  {
    x := Transition(a, Deliver(Request(w)));
    assert B in a.peers;
    assert MakeAppendEntries(x.state, B) == First(w).msg;
  }

  predicate Following(s: NodeState, log: seq<LogEntry>, commit: nat) {
    s.currentTerm == 1 && s.log == log && s.commitIndex == commit && s.role == Follower && s.id == B
        && s.lastApplied <= 1
  }

  lemma Takes(w: Command, b: NodeState) returns (x: Effect)
    requires Following(b, [SENTINEL], 0)
    ensures NoPanic(b, Deliver(First(w))) && x == Transition(b, Deliver(First(w)))
    ensures Following(x.state, [SENTINEL, Written(w)], 0) && TAKEN in x.sent
  {
    hide Replay;
    assert Agreeing(b.log, 1, [Written(w)]) == 0;
    assert b.log[..1] + [Written(w)][0..] == [SENTINEL, Written(w)];
    x := Transition(b, Deliver(First(w)));
  }

  lemma Commits(w: Command, a: NodeState) returns (x: Effect)
    requires Leading(a, [SENTINEL, Written(w)], 1, 0) && a.matchIndex == map[B := 0]
    ensures NoPanic(a, Deliver(TAKEN)) && x == Transition(a, Deliver(TAKEN))
    ensures Leading(x.state, [SENTINEL, Written(w)], 2, 1)
  {
    hide Replay, AppliedKeys;
    var s := a.(matchIndex := a.matchIndex[B := 1], nextIndex := a.nextIndex[B := 2]);
    assert Replicas(s, 1) == {B};
    assert Committable(s, 1);
    assert ScanCommit(s, 1) == 1;
    x := Transition(a, Deliver(TAKEN));
    assert x == UpdateCommitIndex(s);
  }

  lemma Beats(w: Command, a: NodeState) returns (x: Effect)
    requires Leading(a, [SENTINEL, Written(w)], 2, 1)
    ensures NoPanic(a, Heartbeat(A)) && x == Transition(a, Heartbeat(A)) && x.state == a && LATER in x.sent
  {
    x := Transition(a, Heartbeat(A));
    assert B in a.peers;
    assert MakeAppendEntries(a, B) == LATER.msg;
  }

  /** A heartbeat that the follower accepts sets its commit index to the heartbeat's. */
  lemma Follows(w: Command, b: NodeState, p: Packet, commit: nat)
    requires Following(b, [SENTINEL, Written(w)], commit) && commit <= 1 && (p == LATER || p == EARLY)
    ensures NoPanic(b, Deliver(p))
            && Following(Transition(b, Deliver(p)).state, [SENTINEL, Written(w)], p.msg.leaderCommit)
  {
    hide Replay, AppliedKeys;
    assert Agreeing(b.log, p.msg.prevLogIndex + 1, []) == 0;
    assert Reconcile(b.log, p.msg.prevLogIndex + 1, []) == b.log;
    assert TakeEntries(Follow(b, p.msg).state, p.msg).commitIndex == p.msg.leaderCommit;
  }

  // ---------------------------------------------------------------- the runs

  /** A has been elected, and has said so; B has not heard it. */
  lemma Elected() returns (cs: seq<Cluster>, a: NodeState, b: NodeState, net: set<Packet>)
    ensures At(cs, a, b, net) && Leading(a, [SENTINEL], 1, 0) && a.matchIndex == map[B := 0]
    ensures Following(b, [SENTINEL], 0) && EARLY in net
  {
    hide Run, Transition, NoPanic, StepBy, Leading, Following;
    a, b, net := Fresh(A, [B]), Fresh(B, [A]), {};
    cs := Start();
    var x1 := Stands();
    cs := Go(cs, Elect(A), a, b, {}, x1);
    var x2 := Grants();
    cs := Go(cs, Deliver(VOTE_REQUEST), x1.state, b, {} + x1.sent, x2);
    var n2 := {} + x1.sent + x2.sent;
    var x3 := Wins(x1.state);
    cs := Go(cs, Deliver(VOTE), x1.state, x2.state, n2, x3);
    Granted(x2.state);
    a, b, net := x3.state, x2.state, n2 + x3.sent;
  }

  lemma Granted(s: NodeState)
    requires s.currentTerm == 1 && s.log == [SENTINEL] && s.commitIndex == 0 && s.role == Follower && s.id == B
    requires s.lastApplied == 0
    ensures Following(s, [SENTINEL], 0)
  {}

  /** One write is replicated, and A commits it and says so. */
  lemma Replicated(w: Command) returns (cs: seq<Cluster>, a: NodeState, b: NodeState, net: set<Packet>)
    ensures At(cs, a, b, net) && Leading(a, [SENTINEL, Written(w)], 2, 1)
    ensures Following(b, [SENTINEL, Written(w)], 0) && EARLY in net && LATER in net
  {
    hide Run, Transition, NoPanic, StepBy, Leading, Following;
    cs, a, b, net := Elected();
    cs := Ask(cs, a, b, net, Request(w));
    var n1 := net + {Request(w)};
    var x1 := Appends(w, a);
    cs := Go(cs, Deliver(Request(w)), a, b, n1, x1);
    var n2 := n1 + x1.sent;
    var x2 := Takes(w, b);
    cs := Go(cs, Deliver(First(w)), x1.state, b, n2, x2);
    var n3 := n2 + x2.sent;
    var x3 := Commits(w, x1.state);
    cs := Go(cs, Deliver(TAKEN), x1.state, x2.state, n3, x3);
    var n4 := n3 + x3.sent;
    var x4 := Beats(w, x3.state);
    cs := Go(cs, Heartbeat(A), x3.state, x2.state, n4, x4);
    a, b, net := x4.state, x2.state, n4 + x4.sent;
  }

  /** Both nodes have committed the write. */
  lemma Committed(w: Command) returns (cs: seq<Cluster>, a: NodeState, b: NodeState, net: set<Packet>)
    ensures At(cs, a, b, net) && Leading(a, [SENTINEL, Written(w)], 2, 1)
    ensures Following(b, [SENTINEL, Written(w)], 1) && EARLY in net
  {
    hide Run, Transition, NoPanic, StepBy, Leading, Following;
    cs, a, b, net := Replicated(w);
    Follows(w, b, LATER, 0);
    var x := Transition(b, Deliver(LATER));
    cs := Go(cs, Deliver(LATER), a, b, net, x);
    b, net := x.state, net + x.sent;
  }

  /**
    The commit index of a follower can go back in a run: the new leader's first heartbeat, delivered after a
    later one, sets it back from 1 to 0.
  */
  lemma CommitIndexCanDrop() returns (cs: seq<Cluster>, p: Packet)
    ensures Run(cs) && |cs| >= 2
    ensures var c, c' := cs[|cs| - 2], cs[|cs| - 1];
            && p in c.net && StepBy(c, Deliver(p), c') && p.dst in c.nodes && p.dst in c'.nodes
            && c.nodes[p.dst].commitIndex == 1 && c'.nodes[p.dst].commitIndex == 0
  {
    hide Run, Transition, NoPanic, StepBy, Leading;
    var a, b, net;
    cs, a, b, net := Committed(Delete([]));
    Follows(Delete([]), b, EARLY, 1);
    p := EARLY;
    cs := Go(cs, Deliver(p), a, b, net, Transition(b, Deliver(p)));
  }

  /** A run whose nodes agree on everything, and on which the third check fails: the committed write is a NaN. */
  lemma NaNTripsCheck(t: Text, w: Command) returns (cs: seq<Cluster>, list: seq<NodeState>)
    requires HoldsNaN(w)
    ensures Run(cs) && |cs| > 0 && Lists(cs[|cs| - 1], list) && |list| == 2
    ensures list[0].log == list[1].log && list[0].commitIndex == list[1].commitIndex == 1 && !CommitsAgree(t, list)
  {
    hide Run, HoldsNaN, CommitsAgree;
    var a, b, net;
    cs, a, b, net := Committed(w);
    list := [a, b];
    ChecksPassIff(t, cs, |cs| - 1, list);
    assert Shared(list[0], list[1], 1);
  }
}
