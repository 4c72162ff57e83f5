/**
  The cluster as a step relation.

  The network is the set of every packet ever put in an outbox, and any of them may be delivered at
  any time, any number of times, or never: loss, delay, duplication, reordering, partitions, pauses
  and outboxes cleared by a crash are all runs of this relation. Membership is fixed.
*/
module RaftCluster {
  import opened Commands
  import opened RaftTypes
  import opened RaftHandlers

  /** A write a client handed to a leader: filed under (node, index, term). */
  datatype Ticket = Ticket(responder: Responder, command: Command)

  /**
    What happened so far. No handler reads it.
    - termLog[t]:     the log of term t's leader, as far as it has grown;
    - leaderOf[t]:    the node elected in term t;
    - votes[(q, t)]:  whom q voted for in term t;
    - acks[(q, t)]:   the last index up to which q held termLog[t] while it was in term t;
    - tickets:        every client write ever filed by a leader;
    - answered:       the tickets that were replied to.
  */
  datatype History = History(
    termLog: map<nat, seq<LogEntry>>,
    leaderOf: map<nat, NodeId>,
    votes: map<(NodeId, nat), NodeId>,
    acks: map<(NodeId, nat), nat>,
    tickets: map<(NodeId, nat, nat), Ticket>,
    answered: set<(NodeId, nat, nat)>)

  datatype Cluster = Cluster(ids: set<NodeId>, nodes: map<NodeId, NodeState>, net: set<Packet>, hist: History)

  datatype Event =
    | Deliver(p: Packet)
    | Elect(n: NodeId)
    | Heartbeat(n: NodeId)
    | Reboot(n: NodeId)
    | Submit(p: Packet)

  // ---------------------------------------------------------------- initial states

  /** All other members; the list may name one of them twice, which only raises the majority. */
  predicate PeersOf(ids: set<NodeId>, n: NodeId, peers: seq<NodeId>) {
    && SeqSet(peers) == ids - {n}
    && |peers| >= |ids| - 1
  }

  ghost predicate Init(c: Cluster) {
    && c.nodes.Keys == c.ids
    && (forall n :: n in c.ids ==>
          PeersOf(c.ids, n, c.nodes[n].peers) && c.nodes[n] == Fresh(n, c.nodes[n].peers))
    && c.net == {}
    && c.hist == History(map[0 := [SENTINEL]], map[], map[], map q | q in c.ids :: (q, 0) := 0, map[], {})
  }

  // ---------------------------------------------------------------- steps

  function Target(e: Event): NodeId {
    match e
    case Deliver(p) => p.dst
    case Elect(n) => n
    case Heartbeat(n) => n
    case Reboot(n) => n
    case Submit(p) => p.dst
  }

  predicate Enabled(c: Cluster, e: Event) {
    match e
    case Deliver(p) => p in c.net && p.dst in c.ids
    case Submit(p) => IsClientMessage(p.msg)
    case _ => Target(e) in c.ids
  }

  /** No assertion of the source fails when node state `s` meets event `e`. */
  predicate NoPanic(s: NodeState, e: Event) {
    Sane(s) && (e.Deliver? ==> CanHandle(s, e.p.msg))
  }

  function Transition(s: NodeState, e: Event): Effect
    requires NoPanic(s, e)
  {
    match e
    case Deliver(p) => HandleMessage(s, p.msg)
    case Elect(_) => StartElection(s)
    case Heartbeat(_) => if s.role == Leader then Effect(s, Heartbeats(s)) else Effect(s, {})
    case Reboot(_) => Effect(Restart(s), {})
    case Submit(_) => Effect(s, {})
  }

  /** A leader's own log is its term's log, and the leader holds all of it. */
  function RecordState(h: History, n: NodeId, s: NodeState): History {
    var h1 := if s.votedFor.Some? then h.(votes := h.votes[(n, s.currentTerm) := s.votedFor.value]) else h;
    if s.role == Leader then
      h1.(termLog := h1.termLog[s.currentTerm := s.log],
          leaderOf := h1.leaderOf[s.currentTerm := n],
          acks := h1.acks[(n, s.currentTerm) := if |s.log| >= 1 then |s.log| - 1 else 0])
    else h1
  }

  function AckLevel(h: History, n: NodeId, t: nat): nat {
    if (n, t) in h.acks then h.acks[(n, t)] else 0
  }

  function RecordAck(h: History, n: NodeId, t: nat, upTo: nat): History {
    h.(acks := h.acks[(n, t) := Max(AckLevel(h, n, t), upTo)])
  }

  function TicketKeys(n: NodeId, keys: set<(nat, nat)>): set<(NodeId, nat, nat)> {
    set k | k in keys :: (n, k.0, k.1)
  }

  /** The requests that leave `pending`, other than by a restart, are the ones answered. */
  function RecordAnswers(h: History, n: NodeId, before: NodeState, after: NodeState): History {
    h.(answered := h.answered + TicketKeys(n, before.pending.Keys - after.pending.Keys))
  }

  function RecordTicket(h: History, n: NodeId, s: NodeState, m: Message, after: NodeState): History
    requires m.ClientRequest?
  {
    if s.role == Leader then
      var k := (n, |s.log|, s.currentTerm);
      var h1 := h.(tickets := h.tickets[k := Ticket(RaftClient(m.clientId, m.requestId), m.command)]);
      if (|s.log|, s.currentTerm) in after.pending then h1 else h1.(answered := h1.answered + {k})
    else h
  }

  function Record(h: History, n: NodeId, s: NodeState, e: Event, after: NodeState): History {
    var h1 := RecordState(h, n, after);
    if e.Reboot? then h1
    else
      var h2 := RecordAnswers(h1, n, s, after);
      if e.Deliver? && e.p.msg.AppendEntries? && Accepts(s, e.p.msg) then
        RecordAck(h2, n, e.p.msg.term, e.p.msg.prevLogIndex + |e.p.msg.entries|)
      else if e.Deliver? && e.p.msg.ClientRequest? then
        RecordTicket(h2, n, s, e.p.msg, after)
      else h2
  }

  function Next(c: Cluster, e: Event): Cluster
    requires Enabled(c, e) && (!e.Submit? ==> Target(e) in c.nodes && NoPanic(c.nodes[Target(e)], e))
  {
    if e.Submit? then c.(net := c.net + {e.p})
    else
      var n := Target(e);
      var s := c.nodes[n];
      var x := Transition(s, e);
      c.(nodes := c.nodes[n := x.state],
         net := c.net + x.sent,
         hist := Record(c.hist, n, s, e, x.state))
  }

  ghost predicate StepBy(c: Cluster, e: Event, c': Cluster) {
    && Enabled(c, e)
    && (!e.Submit? ==> Target(e) in c.nodes && NoPanic(c.nodes[Target(e)], e))
    && c' == Next(c, e)
  }

  ghost predicate Step(c: Cluster, c': Cluster) {
    exists e :: StepBy(c, e, c')
  }

  ghost predicate Run(cs: seq<Cluster>) {
    && |cs| > 0
    && Init(cs[0])
    && forall i :: 0 <= i < |cs| - 1 ==> Step(cs[i], cs[i + 1])
  }
}
