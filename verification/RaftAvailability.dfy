/**
  A majority is enough: from every state of every run, any set of nodes that holds more than half of the members
  can elect one of its own, and commit and apply a new write on all of its nodes, while the others do nothing.
*/
module RaftAvailability {
  import opened Commands
  import opened RaftTypes
  import opened RaftHandlers
  import opened RaftCluster
  import opened RaftInvariants
  import opened RaftSteps
  import opened RaftPreservation
  import opened RaftSafety
  import opened RaftTheorems
  import opened RaftRuns
  import opened RaftClients
  import opened RaftDuties

  function Last(cs: seq<Cluster>): Cluster
    requires |cs| > 0
  {
    cs[|cs| - 1]
  }

  /** `cs'` continues the run `cs`, and in all that is new no node outside q moves. */
  ghost predicate Continues(cs: seq<Cluster>, cs': seq<Cluster>, q: set<NodeId>) {
    && |cs| > 0 && cs <= cs' && Run(cs')
    && forall i :: |cs| <= i < |cs'| ==> Still(Last(cs), cs'[i], q)
  }

  /** Nobody outside q differs between the two states. */
  predicate Still(c: Cluster, c': Cluster, q: set<NodeId>) {
    c'.ids == c.ids && c'.nodes.Keys == c.nodes.Keys && c'.nodes - q == c.nodes - q
  }

  lemma ContinuesTrans(a: seq<Cluster>, b: seq<Cluster>, d: seq<Cluster>, q: set<NodeId>)
    requires Continues(a, b, q) && Continues(b, d, q)
    ensures Continues(a, d, q)
  {
    hide Run;
    forall i | |a| <= i < |d| ensures Still(Last(a), d[i], q) {
      if i >= |b| {
        assert Still(Last(b), d[i], q);
        assert |b| > |a| ==> Still(Last(a), b[|b| - 1], q);
      } else {
        assert d[i] == b[i];
      }
    }
  }

  /** The members are the nodes, q is more than half of them, and each of q lists every other member once. */
  ghost predicate Fit(cs: seq<Cluster>, q: set<NodeId>) {
    && Run(cs) && |cs| > 0 && Last(cs).nodes.Keys == Last(cs).ids && Quorum(Last(cs).ids, q)
    && forall x :: x in q ==> |Last(cs).nodes[x].peers| + 1 == |Last(cs).ids|
  }

  // ---------------------------------------------------------------- one more step

  lemma RequestKeepsPeers(s: NodeState, m: Message)
    requires CanHandle(s, m) && m.AppendEntries?
    ensures HandleMessage(s, m).state.peers == s.peers
  {
    hide Reconcile, Replay, Reply, AppliedKeys, Accepts;
  }

  lemma CountKeepsPeers(s: NodeState)
    requires Sane(s)
    ensures UpdateCommitIndex(s).state.peers == s.peers
  {
    hide Replay, Reply, AppliedKeys, ScanCommit;
  }

  lemma DeliveryKeepsPeers(s: NodeState, m: Message)
    requires CanHandle(s, m)
    ensures HandleMessage(s, m).state.peers == s.peers
  {
    hide Majority, Heartbeats, UpToDate, MakeAppendEntries, Reply, HandleAppendEntries, UpdateCommitIndex;
    if m.AppendEntries? {
      RequestKeepsPeers(s, m);
    } else if s.role == Leader && IsWrite(m) {
      CountKeepsPeers(AppendEntry(s, m.command));
    } else if s.role == Leader && m.AppendEntriesResponse? && m.success && m.term == s.currentTerm {
      CountKeepsPeers(s.(matchIndex := s.matchIndex[m.followerId := m.matchIndex],
                         nextIndex := s.nextIndex[m.followerId := m.matchIndex + 1]));
    }
  }

  lemma KeepsPeers(s: NodeState, e: Event)
    requires NoPanic(s, e)
    ensures Transition(s, e).state.peers == s.peers
  {
    hide HandleMessage, Majority, Heartbeats, CanHandle;
    if e.Deliver? {
      DeliveryKeepsPeers(s, e.p.msg);
    }
  }

  /** One more step of the run, taken by a node of q. */
  lemma Advance(cs: seq<Cluster>, q: set<NodeId>, e: Event)
    returns (cs': seq<Cluster>, s: NodeState, s': NodeState, sent: set<Packet>)
    requires Fit(cs, q) && !e.Submit? && Enabled(Last(cs), e) && Target(e) in q
    ensures Fit(cs', q) && Continues(cs, cs', q) && |cs'| == |cs| + 1
    ensures s == Last(cs).nodes[Target(e)] && StepAt(cs', |cs| - 1, e, s, s', sent) && cs'[|cs| - 1] == Last(cs)
    ensures var c, c' := Last(cs), Last(cs');
            c'.ids == c.ids && c'.nodes == c.nodes[Target(e) := s'] && c'.net == c.net + sent
  {
    hide Run, StepBy, Transition, NoPanic;
    s := Last(cs).nodes[Target(e)];
    var c' := Extend(cs, e, s);
    KeepsPeers(s, e);
    cs', s', sent := cs + [c'], Transition(s, e).state, Transition(s, e).sent;
  }

  /** A client's message enters the network. */
  lemma Ask(cs: seq<Cluster>, q: set<NodeId>, p: Packet) returns (cs': seq<Cluster>)
    requires Fit(cs, q) && IsClientMessage(p.msg)
    ensures Fit(cs', q) && Continues(cs, cs', q)
    ensures Last(cs') == Last(cs).(net := Last(cs).net + {p})
  {
    hide Run;
    var c' := ExtendSubmit(cs, p);
    cs' := cs + [c'];
  }

  // ---------------------------------------------------------------- an election

  /** The log of a ends no earlier than the log of b: the later term wins, then the longer log. */
  predicate Covers(a: seq<LogEntry>, b: seq<LogEntry>) {
    |a| >= 1 && |b| >= 1 && NotBehind(a[|a| - 1].term, |a| - 1, b)
  }

  lemma CoversTrans(a: seq<LogEntry>, b: seq<LogEntry>, d: seq<LogEntry>)
    requires Covers(a, b) && Covers(b, d)
    ensures Covers(a, d)
  {}

  /** Some node of q has a log that covers those of all of q. */
  lemma {:induction false} MostComplete(nodes: map<NodeId, NodeState>, q: set<NodeId>) returns (n: NodeId)
    requires q != {} && q <= nodes.Keys && forall x :: x in q ==> |nodes[x].log| >= 1
    ensures n in q && forall x :: x in q ==> Covers(nodes[n].log, nodes[x].log)
    decreases |q|
  {
    hide Covers;
    var a :| a in q;
    n := a;
    CoversSelf(nodes[a].log);
    var rest := q - {a};
    assert q == rest + {a};
    if rest != {} {
      var b := MostComplete(nodes, rest);
      CoversTotal(nodes[a].log, nodes[b].log);
      if Covers(nodes[a].log, nodes[b].log) {
        forall x | x in rest ensures Covers(nodes[a].log, nodes[x].log) {
          CoversTrans(nodes[a].log, nodes[b].log, nodes[x].log);
        }
      } else {
        n := b;
      }
    }
  }

  lemma CoversSelf(a: seq<LogEntry>)
    requires |a| >= 1
    ensures Covers(a, a)
  {}

  lemma CoversTotal(a: seq<LogEntry>, b: seq<LogEntry>)
    requires |a| >= 1 && |b| >= 1
    ensures Covers(a, b) || Covers(b, a)
  {}

  function BallotOf(s: NodeState, n: NodeId, x: NodeId): Packet
    requires |s.log| >= 1
  {
    Packet(x, RequestVote(s.currentTerm, n, |s.log| - 1, s.log[|s.log| - 1].term))
  }

  /** Node n stands for election until its term is above all terms up to `top`. */
  lemma {:induction false} StandAbove(cs: seq<Cluster>, q: set<NodeId>, n: NodeId, top: nat) returns (cs': seq<Cluster>)
    requires Fit(cs, q) && n in q && Last(cs).nodes[n].currentTerm <= top
    ensures Fit(cs', q) && Continues(cs, cs', q)
    ensures var c, c' := Last(cs), Last(cs');
            && c'.ids == c.ids && c'.nodes == c.nodes[n := c'.nodes[n]]
            && var s' := c'.nodes[n];
               && s'.log == c.nodes[n].log && |s'.log| >= 1 && s'.currentTerm > top && s'.votesReceived == {n}
               && s'.role == (if c.ids == {n} then Leader else Candidate)
               && (c.ids != {n} ==> forall x :: x in c.ids - {n} ==> BallotOf(s', n, x) in c'.net)
    decreases top - Last(cs).nodes[n].currentTerm
  {
    hide Run, StepAt, Continues;
    var s, s', sent;
    cs', s, s', sent := Advance(cs, q, Elect(n));
    ElectionAsksAll(cs', |cs| - 1, Elect(n), s, s', sent);
    if s'.currentTerm <= top {
      var cs1 := cs';
      cs' := StandAbove(cs1, q, n, top);
      ContinuesTrans(cs, cs1, cs', q);
    }
  }

  /** Node n leads, or still counts: it has the votes of `voted`, which are not a majority. */
  ghost predicate Counting(c: Cluster, q: set<NodeId>, n: NodeId, rest: set<NodeId>)
    requires n in c.nodes
  {
    var s := c.nodes[n];
    && s.role == Candidate && q - rest <= s.votesReceived && 2 * |s.votesReceived| <= |s.peers| + 1 && |s.log| >= 1
    && forall x :: x in rest ==>
         && x in c.nodes && c.nodes[x].currentTerm < s.currentTerm && Covers(s.log, c.nodes[x].log)
         && BallotOf(s, n, x) in c.net
  }

  ghost predicate NobodyAhead(c: Cluster, q: set<NodeId>, n: NodeId)
    requires n in c.nodes
  {
    forall x :: x in q ==> x in c.nodes && c.nodes[x].currentTerm <= c.nodes[n].currentTerm
  }

  /** The candidate n gathers the votes of `rest`, until it leads. */
  lemma {:induction false} GatherVotes(cs: seq<Cluster>, q: set<NodeId>, n: NodeId, rest: set<NodeId>)
    returns (cs': seq<Cluster>)
    requires Fit(cs, q) && n in q && rest <= q - {n} && NobodyAhead(Last(cs), q, n)
    requires Last(cs).nodes[n].role == Leader || Counting(Last(cs), q, n, rest)
    ensures Fit(cs', q) && Continues(cs, cs', q) && NobodyAhead(Last(cs'), q, n)
    ensures var s, s' := Last(cs).nodes[n], Last(cs').nodes[n];
            s'.role == Leader && s'.log == s.log && s'.currentTerm == s.currentTerm && Last(cs').ids == Last(cs).ids
    decreases rest
  {
    hide Run, Continues;
    cs' := cs;
    if Last(cs).nodes[n].role == Leader {
      ContinuesSelf(cs, q);
    } else if rest == {} {
      EnoughVotes(Last(cs), q, n);
    } else {
      var x :| x in rest;
      var cs1 := GatherVote(cs, q, n, rest, x);
      cs' := GatherVotes(cs1, q, n, rest - {x});
      ContinuesTrans(cs, cs1, cs', q);
    }
  }

  lemma ContinuesSelf(cs: seq<Cluster>, q: set<NodeId>)
    requires |cs| > 0 && Run(cs)
    ensures Continues(cs, cs, q)
  {}

  lemma EnoughVotes(c: Cluster, q: set<NodeId>, n: NodeId)
    requires n in c.nodes && Quorum(c.ids, q) && |c.nodes[n].peers| + 1 == |c.ids|
    ensures !Counting(c, q, n, {})
  {
    if q - {} <= c.nodes[n].votesReceived {
      FewerInSubset(q, c.nodes[n].votesReceived);
    }
  }

  /** One voter is asked, grants its vote, and the vote is counted. */
  lemma GatherVote(cs: seq<Cluster>, q: set<NodeId>, n: NodeId, rest: set<NodeId>, x: NodeId)
    returns (cs': seq<Cluster>)
    requires Fit(cs, q) && n in q && rest <= q - {n} && NobodyAhead(Last(cs), q, n)
    requires Counting(Last(cs), q, n, rest) && x in rest
    ensures Fit(cs', q) && Continues(cs, cs', q) && NobodyAhead(Last(cs'), q, n) && Last(cs').ids == Last(cs).ids
    ensures var s, s' := Last(cs).nodes[n], Last(cs').nodes[n];
            && (s'.role == Leader || Counting(Last(cs'), q, n, rest - {x}))
            && s'.log == s.log && s'.currentTerm == s.currentTerm
  {
    hide Run, StepAt, Continues, Quorum;
    var c := Last(cs);
    var ask := BallotOf(c.nodes[n], n, x);
    var cs1, v, v', sent := Advance(cs, q, Deliver(ask));
    BallotDecides(cs1, |cs| - 1, Deliver(ask), v, v', sent);
    var vote := Packet(n, RequestVoteResponse(v'.currentTerm, x, true));
    assert vote in Last(cs1).net;
    var s, s', sent';
    cs', s, s', sent' := Advance(cs1, q, Deliver(vote));
    VoteDecides(cs', |cs1| - 1, Deliver(vote), s, s', sent');
    ContinuesTrans(cs, cs1, cs', q);
  }

  // ---------------------------------------------------------------- a write

  /** Node n has asked x to take in everything from x's next index on. */
  ghost predicate Asked(c: Cluster, n: NodeId, x: NodeId)
    requires n in c.nodes
  {
    var s := c.nodes[n];
    && x in s.nextIndex && 1 <= s.nextIndex[x] <= |s.log|
    && exists commit: nat :: SuffixFor(s, n, x, commit) in c.net
  }

  /** Node n leads a cluster in which no node of q is in a later term; its last entry is of its own term. */
  ghost predicate Leads(c: Cluster, q: set<NodeId>, n: NodeId)
    requires n in c.nodes
  {
    var s := c.nodes[n];
    s.role == Leader && NobodyAhead(c, q, n) && |s.log| >= 2 && s.log[|s.log| - 1].term == s.currentTerm
  }

  lemma LeaderStays(cs: seq<Cluster>, i: nat, e: Event, s: NodeState, s': NodeState, sent: set<Packet>)
    requires StepAt(cs, i, e, s, s', sent) && e.Deliver? && IsWrite(e.p.msg) && s.role == Leader
    ensures s'.role == Leader && s'.currentTerm == s.currentTerm
    ensures s'.log == s.log + [LogEntry(s.currentTerm, e.p.msg.command)]
  {
    hide Run, StepAt, AppendCommand;
    StepIs(cs, i, e, s, s', sent);
    AppendFacts(s, e.p.msg.command);
  }

  /** A leader gets the write w: it appends it and asks every other member to take it in. */
  lemma Propose(cs: seq<Cluster>, q: set<NodeId>, n: NodeId, w: Command) returns (cs': seq<Cluster>)
    requires Fit(cs, q) && n in q && Last(cs).nodes[n].role == Leader && NobodyAhead(Last(cs), q, n)
    ensures Fit(cs', q) && Continues(cs, cs', q) && Last(cs').ids == Last(cs).ids && Leads(Last(cs'), q, n)
    ensures var s, s', c' := Last(cs).nodes[n], Last(cs').nodes[n], Last(cs');
            && |s.log| >= 1 && s'.log == s.log + [LogEntry(s.currentTerm, w)] && s'.currentTerm == s.currentTerm
            && (forall x :: x in c'.ids - {n} ==> Asked(c', n, x))
            && (c'.ids == {n} ==> s'.lastApplied == |s.log|)
  {
    hide Run, StepAt, Continues, Quorum;
    var p := Packet(n, ClientCommand(w));
    var cs1 := Ask(cs, q, p);
    var s, s', sent;
    cs', s, s', sent := Advance(cs1, q, Deliver(p));
    ContinuesTrans(cs, cs1, cs', q);
    Membership(cs', |cs1| - 1, n);
    LeaderStays(cs', |cs1| - 1, Deliver(p), s, s', sent);
    var c' := Last(cs');
    forall x | x in c'.ids - {n} ensures Asked(c', n, x) {
      WriteReachesAll(cs', |cs1| - 1, Deliver(p), s, s', sent, x);
      assert SuffixFor(s', n, x, s.commitIndex) in c'.net;
    }
    if c'.ids == {n} {
      AloneCommits(cs', |cs1| - 1, Deliver(p), s, s', sent);
    }
  }

  /** Node x holds the whole log of n, follows its term, and n knows it. */
  predicate CaughtUp(c: Cluster, n: NodeId, x: NodeId)
    requires n in c.nodes
  {
    var s := c.nodes[n];
    && x in c.nodes && |s.log| >= 1 && s.log <= c.nodes[x].log && c.nodes[x].currentTerm == s.currentTerm
    && x in s.matchIndex && s.matchIndex[x] == |s.log| - 1 && x in s.nextIndex && s.nextIndex[x] == |s.log|
  }

  /** Between two states the leader n only learns about x, and commits what more than half then hold. */
  ghost predicate LearntOf(c: Cluster, c': Cluster, n: NodeId, x: NodeId)
    requires n in c.nodes
  {
    && c'.ids == c.ids && c'.nodes.Keys == c.nodes.Keys && c'.nodes - {n, x} == c.nodes - {n, x} && c.net <= c'.net
    && var s, s' := c.nodes[n], c'.nodes[n];
       && s'.role == s.role && s'.log == s.log && s'.currentTerm == s.currentTerm
       && s'.matchIndex - {x} == s.matchIndex - {x} && s'.nextIndex - {x} == s.nextIndex - {x}
  }

  lemma SameStart(cs: seq<Cluster>, i: nat, a: NodeId, b: NodeId)
    requires Run(cs) && i < |cs| && a in cs[i].nodes && b in cs[i].nodes
    ensures |cs[i].nodes[a].log| >= 1 && |cs[i].nodes[b].log| >= 1
    ensures cs[i].nodes[a].log[0].term == cs[i].nodes[b].log[0].term
  {
    hide Run, Inv, LogOk;
    Reachable(cs, i);
    StartsAlike(cs[i], a);
    StartsAlike(cs[i], b);
  }

  /** A member that accepts all of the leader's log from an index on holds all of that log. */
  lemma TakesAll(cs: seq<Cluster>, i: nat, n: NodeId, x: NodeId, next: nat, log': seq<LogEntry>)
    requires Run(cs) && i < |cs| && n in cs[i].nodes && x in cs[i].nodes
    requires var L, f := cs[i].nodes[n].log, cs[i].nodes[x].log;
             && 1 <= next <= |L| && next <= |f| && f[next - 1].term == L[next - 1].term
             && log' == if HoldsAt(f, next, L[next..]) then f else f[..next] + L[next..]
    ensures cs[i].nodes[n].log <= log'
  {
    hide Run;
    var L, f := cs[i].nodes[n].log, cs[i].nodes[x].log;
    LogMatching(cs, i, i, n, x, next - 1);
    assert L == L[..next] + L[next..];
    if HoldsAt(f, next, L[next..]) {
      assert f[..|L|] == f[..next] + f[next..|L|];
    }
  }

  function AnswerOf(n: NodeId, x: NodeId, term: nat, ok: bool, held: nat): Packet {
    Packet(n, AppendEntriesResponse(term, x, ok, held))
  }

  /** The member x takes in what n asked it to, or refuses because the request starts too late. */
  lemma DeliverRequest(cs: seq<Cluster>, q: set<NodeId>, n: NodeId, x: NodeId)
    returns (cs': seq<Cluster>, ok: bool, held: nat)
    requires Fit(cs, q) && n in q && x in q && n != x && Leads(Last(cs), q, n) && Asked(Last(cs), n, x)
    ensures Fit(cs', q) && Continues(cs, cs', q)
    ensures var c, c' := Last(cs), Last(cs');
            var s := c.nodes[n];
            && c'.ids == c.ids && c'.nodes == c.nodes[x := c'.nodes[x]] && c.net <= c'.net
            && c'.nodes[x].currentTerm == s.currentTerm
            && AnswerOf(n, x, s.currentTerm, ok, held) in c'.net
            && (ok ==> held == |s.log| - 1 && s.log <= c'.nodes[x].log)
            && (!ok ==> s.nextIndex[x] > 1)
  {
    hide Run, StepAt, Continues, Quorum, HoldsAt;
    var c := Last(cs);
    var commit: nat :| SuffixFor(c.nodes[n], n, x, commit) in c.net;
    var p := SuffixFor(c.nodes[n], n, x, commit);
    var f, f', sent;
    cs', f, f', sent := Advance(cs, q, Deliver(p));
    FollowerTakes(cs', |cs| - 1, Deliver(p), f, f', sent);
    SameStart(cs', |cs| - 1, n, x);
    ok := p.msg.prevLogIndex < |f.log| && f.log[p.msg.prevLogIndex].term == p.msg.prevLogTerm;
    held := if ok then p.msg.prevLogIndex + |p.msg.entries| else |f.log| - 1;
    if ok {
      TakesAll(cs', |cs| - 1, n, x, c.nodes[n].nextIndex[x], f'.log);
    }
  }

  lemma DeliverAcceptance(cs: seq<Cluster>, q: set<NodeId>, n: NodeId, x: NodeId) returns (cs': seq<Cluster>)
    requires Fit(cs, q) && n in q && x in q && n != x && Leads(Last(cs), q, n)
    requires var c := Last(cs);
             var s := c.nodes[n];
             && s.log <= c.nodes[x].log && c.nodes[x].currentTerm == s.currentTerm
             && AnswerOf(n, x, s.currentTerm, true, |s.log| - 1) in c.net
    ensures Fit(cs', q) && Continues(cs, cs', q) && Leads(Last(cs'), q, n)
    ensures LearntOf(Last(cs), Last(cs'), n, x) && CaughtUp(Last(cs'), n, x)
    ensures var s' := Last(cs').nodes[n];
            Counted(s', n, |s'.log| - 1) ==> |s'.log| - 1 <= s'.commitIndex && |s'.log| - 1 <= s'.lastApplied
  {
    hide Run, StepAt, Continues, Quorum, Advanced, Counted;
    var c := Last(cs);
    var answer := AnswerOf(n, x, c.nodes[n].currentTerm, true, |c.nodes[n].log| - 1);
    var s, s', sent;
    cs', s, s', sent := Advance(cs, q, Deliver(answer));
    AcceptanceCounts(cs', |cs| - 1, Deliver(answer), s, s', sent);
    CountedReaches(s, s', n);
  }

  lemma DeliverRejection(cs: seq<Cluster>, q: set<NodeId>, n: NodeId, x: NodeId, held: nat)
    returns (cs': seq<Cluster>)
    requires Fit(cs, q) && n in q && x in q && n != x && Leads(Last(cs), q, n)
    requires AnswerOf(n, x, Last(cs).nodes[n].currentTerm, false, held) in Last(cs).net
    ensures Fit(cs', q) && Continues(cs, cs', q) && Leads(Last(cs'), q, n)
    ensures LearntOf(Last(cs), Last(cs'), n, x) && Asked(Last(cs'), n, x)
    ensures var next, next' := Last(cs).nodes[n].nextIndex, Last(cs').nodes[n].nextIndex;
            x in next && x in next' && 1 <= next[x] && next'[x] == Max(1, next[x] - 1)
  {
    hide Run, StepAt, Continues, Quorum;
    var answer := AnswerOf(n, x, Last(cs).nodes[n].currentTerm, false, held);
    var s, s', sent;
    cs', s, s', sent := Advance(cs, q, Deliver(answer));
    RejectionRetries(cs', |cs| - 1, Deliver(answer), s, s', sent);
    assert SuffixFor(s', n, x, s.commitIndex) in Last(cs').net;
  }

  lemma LearntTrans(a: Cluster, b: Cluster, d: Cluster, n: NodeId, x: NodeId)
    requires n in a.nodes && x in a.nodes && LearntOf(a, b, n, x) && LearntOf(b, d, n, x)
    ensures LearntOf(a, d, n, x)
  {}

  /** The leader n and the member x exchange requests and answers until x holds all of n's log. */
  lemma {:induction false} BringUp(cs: seq<Cluster>, q: set<NodeId>, n: NodeId, x: NodeId) returns (cs': seq<Cluster>)
    requires Fit(cs, q) && n in q && x in q && n != x && Leads(Last(cs), q, n) && Asked(Last(cs), n, x)
    ensures Fit(cs', q) && Continues(cs, cs', q) && Leads(Last(cs'), q, n)
    ensures LearntOf(Last(cs), Last(cs'), n, x) && CaughtUp(Last(cs'), n, x)
    ensures var s' := Last(cs').nodes[n];
            Counted(s', n, |s'.log| - 1) ==> |s'.log| - 1 <= s'.commitIndex && |s'.log| - 1 <= s'.lastApplied
    decreases Last(cs).nodes[n].nextIndex[x]
  {
    hide Run, Continues, Quorum, Counted, AnswerOf;
    var cs1, ok, held := DeliverRequest(cs, q, n, x);
    if ok {
      cs' := DeliverAcceptance(cs1, q, n, x);
    } else {
      var cs2 := DeliverRejection(cs1, q, n, x, held);
      cs' := BringUp(cs2, q, n, x);
      LearntTrans(Last(cs1), Last(cs2), Last(cs'), n, x);
      ContinuesTrans(cs1, cs2, cs', q);
    }
    LearntTrans(Last(cs), Last(cs1), Last(cs'), n, x);
    ContinuesTrans(cs, cs1, cs', q);
  }

  lemma CountedReaches(s: NodeState, s': NodeState, n: NodeId)
    requires Advanced(s.(matchIndex := s'.matchIndex), n, s') && |s.log| >= 1
    requires s'.log == s.log && s'.currentTerm == s.currentTerm && s'.peers == s.peers
    ensures Counted(s', n, |s'.log| - 1) ==> |s'.log| - 1 <= s'.commitIndex && |s'.log| - 1 <= s'.lastApplied
  {
    var s1, k := s.(matchIndex := s'.matchIndex), |s.log| - 1;
    assert Holders(s1, n, k) == Holders(s', n, k);
    assert Counted(s1, n, k) == Counted(s', n, k);
  }

  lemma OthersStay(c: Cluster, c': Cluster, n: NodeId, x: NodeId, y: NodeId)
    requires n in c.nodes && LearntOf(c, c', n, x) && y != x && y != n
    ensures Asked(c, n, y) ==> Asked(c', n, y)
    ensures CaughtUp(c, n, y) ==> CaughtUp(c', n, y)
  {
    var s, s' := c.nodes[n], c'.nodes[n];
    assert forall m: map<NodeId, nat> :: y in m <==> y in m - {x};
    assert y in s.nextIndex ==> s.nextIndex[y] == (s.nextIndex - {x})[y] == s'.nextIndex[y];
    assert y in s.matchIndex ==> s.matchIndex[y] == (s.matchIndex - {x})[y] == s'.matchIndex[y];
    assert y in c.nodes ==> c.nodes[y] == (c.nodes - {n, x})[y] == c'.nodes[y];
    if Asked(c, n, y) {
      var commit: nat :| SuffixFor(s, n, y, commit) in c.net;
      assert SuffixFor(s', n, y, commit) in c'.net;
    }
  }

  lemma MostHold(c: Cluster, q: set<NodeId>, n: NodeId)
    requires n in c.nodes && Quorum(c.ids, q) && |c.nodes[n].peers| + 1 == |c.ids|
    requires |c.nodes[n].log| >= 1 && c.nodes[n].log[|c.nodes[n].log| - 1].term == c.nodes[n].currentTerm
    requires forall y :: y in q - {n} ==> CaughtUp(c, n, y)
    ensures Counted(c.nodes[n], n, |c.nodes[n].log| - 1)
  {
    var h := Holders(c.nodes[n], n, |c.nodes[n].log| - 1);
    forall y | y in q ensures y in h {
      assert y == n || y in q - {n};
    }
    FewerInSubset(q, h);
  }

  /** The leader n brings up the members `rest`, one after the other, and has then committed all of its log. */
  lemma {:induction false} BringUpAll(cs: seq<Cluster>, q: set<NodeId>, n: NodeId, rest: set<NodeId>)
    returns (cs': seq<Cluster>)
    requires Fit(cs, q) && n in q && rest <= q - {n} && rest != {} && Leads(Last(cs), q, n)
    requires forall y :: y in rest ==> Asked(Last(cs), n, y)
    requires forall y :: y in q - rest - {n} ==> CaughtUp(Last(cs), n, y)
    ensures Fit(cs', q) && Continues(cs, cs', q) && Leads(Last(cs'), q, n)
    ensures forall y :: y in q - {n} ==> CaughtUp(Last(cs'), n, y)
    ensures var s, s' := Last(cs).nodes[n], Last(cs').nodes[n];
            && s'.log == s.log && s'.currentTerm == s.currentTerm && Last(cs').ids == Last(cs).ids
            && |s.log| - 1 <= s'.commitIndex && |s.log| - 1 <= s'.lastApplied
    decreases rest
  {
    hide Run, Continues, Asked, CaughtUp, Counted;
    var x :| x in rest;
    var cs1 := BringUp(cs, q, n, x);
    forall y | y in q - {n} && y != x
      ensures Asked(Last(cs), n, y) ==> Asked(Last(cs1), n, y)
      ensures CaughtUp(Last(cs), n, y) ==> CaughtUp(Last(cs1), n, y)
    {
      OthersStay(Last(cs), Last(cs1), n, x, y);
    }
    if rest == {x} {
      MostHold(Last(cs1), q, n);
      cs' := cs1;
    } else {
      cs' := BringUpAll(cs1, q, n, rest - {x});
      ContinuesTrans(cs, cs1, cs', q);
    }
  }

  // ---------------------------------------------------------------- everyone applies

  /** Node y holds the first |log| entries of n's log and has applied them. */
  predicate HasApplied(c: Cluster, y: NodeId, log: seq<LogEntry>) {
    y in c.nodes && log <= c.nodes[y].log && |log| - 1 <= c.nodes[y].lastApplied
  }

  lemma Unmoved(c: Cluster, c': Cluster, n: NodeId, x: NodeId, y: NodeId)
    requires n in c.nodes && x in c.nodes && x != n && y != x && x in c'.nodes
    requires c'.nodes == c.nodes[x := c'.nodes[x]]
    ensures CaughtUp(c, n, y) == CaughtUp(c', n, y)
    ensures HasApplied(c, y, c.nodes[n].log) == HasApplied(c', y, c.nodes[n].log)
  {}

  /** The member x hears the leader's heartbeat and applies what it committed. */
  lemma SpreadTo(cs: seq<Cluster>, q: set<NodeId>, n: NodeId, x: NodeId) returns (cs': seq<Cluster>)
    requires Fit(cs, q) && n in q && x in q && x != n
    requires var s := Last(cs).nodes[n];
             && CaughtUp(Last(cs), n, x) && |s.log| - 1 <= s.commitIndex
             && SuffixFor(s, n, x, s.commitIndex) in Last(cs).net
    ensures Fit(cs', q) && Continues(cs, cs', q) && HasApplied(Last(cs'), x, Last(cs).nodes[n].log)
    ensures var c, c' := Last(cs), Last(cs');
            c'.ids == c.ids && c'.nodes == c.nodes[x := c'.nodes[x]] && c.net <= c'.net
  {
    hide Run, StepAt, Continues;
    var s := Last(cs).nodes[n];
    var beat := SuffixFor(s, n, x, s.commitIndex);
    var f, f', sent;
    cs', f, f', sent := Advance(cs, q, Deliver(beat));
    FollowerTakes(cs', |cs| - 1, Deliver(beat), f, f', sent);
    assert f.log[|s.log| - 1] == s.log[|s.log| - 1];
  }

  /** The members `rest` hear the leader's heartbeat and apply what it committed. */
  lemma {:induction false} Spread(cs: seq<Cluster>, q: set<NodeId>, n: NodeId, rest: set<NodeId>)
    returns (cs': seq<Cluster>)
    requires Fit(cs, q) && n in q && rest <= q - {n} && Last(cs).nodes[n].role == Leader
    requires var s := Last(cs).nodes[n]; |s.log| >= 1 && |s.log| - 1 <= s.commitIndex
    requires forall y :: y in rest ==>
               && CaughtUp(Last(cs), n, y)
               && SuffixFor(Last(cs).nodes[n], n, y, Last(cs).nodes[n].commitIndex) in Last(cs).net
    requires forall y :: y in q - rest ==> HasApplied(Last(cs), y, Last(cs).nodes[n].log)
    ensures Fit(cs', q) && Continues(cs, cs', q) && Last(cs').ids == Last(cs).ids
    ensures Last(cs').nodes[n] == Last(cs).nodes[n]
    ensures forall y :: y in q ==> HasApplied(Last(cs'), y, Last(cs).nodes[n].log)
    decreases rest
  {
    hide Run, Continues, SuffixFor, CaughtUp, HasApplied;
    cs' := cs;
    if rest == {} {
      ContinuesSelf(cs, q);
    } else {
      var x :| x in rest;
      var cs1 := SpreadTo(cs, q, n, x);
      forall y | y in q && y != x
        ensures CaughtUp(Last(cs), n, y) == CaughtUp(Last(cs1), n, y)
        ensures HasApplied(Last(cs), y, Last(cs).nodes[n].log) == HasApplied(Last(cs1), y, Last(cs).nodes[n].log)
      {
        Unmoved(Last(cs), Last(cs1), n, x, y);
      }
      cs' := Spread(cs1, q, n, rest - {x});
      ContinuesTrans(cs, cs1, cs', q);
    }
  }

  /** The leader n beats, and everyone in q applies all of its log. */
  lemma BeatAndSpread(cs: seq<Cluster>, q: set<NodeId>, n: NodeId) returns (cs': seq<Cluster>)
    requires Fit(cs, q) && n in q && Leads(Last(cs), q, n)
    requires forall y :: y in q - {n} ==> CaughtUp(Last(cs), n, y)
    requires var s := Last(cs).nodes[n]; |s.log| - 1 <= s.commitIndex && |s.log| - 1 <= s.lastApplied
    ensures Fit(cs', q) && Continues(cs, cs', q)
    ensures Last(cs').nodes[n] == Last(cs).nodes[n]
    ensures forall y :: y in q ==> HasApplied(Last(cs'), y, Last(cs).nodes[n].log)
  {
    hide Run, StepAt, Continues, SuffixFor;
    var cs1, s, s', sent := Advance(cs, q, Heartbeat(n));
    HeartbeatReachesAll(cs1, |cs| - 1, Heartbeat(n), s, s', sent);
    assert Last(cs1).nodes == Last(cs).nodes;
    cs' := Spread(cs1, q, n, q - {n});
    ContinuesTrans(cs, cs1, cs', q);
  }

  // ---------------------------------------------------------------- the theorem

  lemma HighestTerm(nodes: map<NodeId, NodeState>, q: set<NodeId>) returns (top: nat)
    requires q <= nodes.Keys
    ensures forall x :: x in q ==> nodes[x].currentTerm <= top
    decreases |q|
  {
    top := 0;
    if q != {} {
      var x :| x in q;
      assert q == (q - {x}) + {x};
      top := HighestTerm(nodes, q - {x});
      top := Max(top, nodes[x].currentTerm);
    }
  }

  /** Some node of q can come to lead a term above all terms of q, with its log unchanged. */
  lemma QuorumCanElect(cs: seq<Cluster>, q: set<NodeId>) returns (cs': seq<Cluster>, n: NodeId)
    requires Fit(cs, q)
    ensures Fit(cs', q) && Continues(cs, cs', q) && n in q && NobodyAhead(Last(cs'), q, n)
    ensures var s, s' := Last(cs).nodes[n], Last(cs').nodes[n];
            s'.role == Leader && s'.log == s.log && s'.currentTerm > s.currentTerm && Last(cs').ids == Last(cs).ids
  {
    hide Run, Continues, Covers;
    var c := Last(cs);
    assert q != {} by { QuorumNotEmpty(c.ids, q); }
    forall x | x in q ensures |c.nodes[x].log| >= 1 {
      Membership(cs, |cs| - 1, x);
    }
    n := MostComplete(c.nodes, q);
    var top := HighestTerm(c.nodes, q);
    var cs1 := StandAbove(cs, q, n, top);
    if c.ids == {n} {
      cs' := cs1;
    } else {
      SmallestMajority(c.ids, n);
      assert Counting(Last(cs1), q, n, q - {n});
      cs' := GatherVotes(cs1, q, n, q - {n});
      ContinuesTrans(cs, cs1, cs', q);
    }
  }

  lemma QuorumNotEmpty(ids: set<NodeId>, q: set<NodeId>)
    requires Quorum(ids, q)
    ensures q != {}
  {
    assert |q| > 0;
  }

  lemma SmallestMajority(ids: set<NodeId>, n: NodeId)
    requires n in ids && ids != {n}
    ensures |ids| >= 2
  {
    assert ids == {n} + (ids - {n});
    assert ids - {n} != {};
  }

  lemma FitsRun(cs: seq<Cluster>, q: set<NodeId>)
    requires Run(cs) && Quorum(Last(cs).ids, q)
    requires forall x :: x in q && x in Last(cs).nodes ==> |Last(cs).nodes[x].peers| + 1 == |Last(cs).ids|
    ensures Fit(cs, q)
  {
    hide Inv;
    Reachable(cs, |cs| - 1);
  }

  /**
    A majority is enough. Take any run, any set q of more than half of the members that list each other once, and any
    write w. The run can be continued, without a step of any node outside q, to a state in which a node of q leads,
    the write stands right behind the log that node had, and every node of q has applied it.
  */
  lemma QuorumCanCommit(cs: seq<Cluster>, q: set<NodeId>, w: Command) returns (cs': seq<Cluster>, n: NodeId)
    requires Run(cs) && Quorum(Last(cs).ids, q)
    requires forall x :: x in q && x in Last(cs).nodes ==> |Last(cs).nodes[x].peers| + 1 == |Last(cs).ids|
    ensures Continues(cs, cs', q) && n in q && n in Last(cs).nodes && n in Last(cs').nodes
    ensures Last(cs').nodes[n].role == Leader && Last(cs').nodes[n].currentTerm > Last(cs).nodes[n].currentTerm
    ensures var log := Last(cs).nodes[n].log + [LogEntry(Last(cs').nodes[n].currentTerm, w)];
            Last(cs').nodes[n].log == log && forall x :: x in q ==> HasApplied(Last(cs'), x, log)
  {
    hide Run, Continues, Asked, CaughtUp, NobodyAhead, Inv;
    FitsRun(cs, q);
    var cs1;
    cs1, n := QuorumCanElect(cs, q);
    var cs2 := Propose(cs1, q, n, w);
    ContinuesTrans(cs, cs1, cs2, q);
    if Last(cs2).ids == {n} {
      cs' := cs2;
      assert q == {n};
    } else {
      assert q - {n} != {} by { NotAlone(Last(cs2).ids, q, n); }
      var cs3 := BringUpAll(cs2, q, n, q - {n});
      ContinuesTrans(cs, cs2, cs3, q);
      cs' := BeatAndSpread(cs3, q, n);
      ContinuesTrans(cs, cs3, cs', q);
    }
  }

  lemma NotAlone(ids: set<NodeId>, q: set<NodeId>, n: NodeId)
    requires Quorum(ids, q) && n in q && ids != {n}
    ensures q - {n} != {}
  {
    SmallestMajority(ids, n);
    assert q - {n} == {} ==> q == {n};
  }
}
