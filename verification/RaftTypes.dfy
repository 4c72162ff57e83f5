/** Raft data: log entries, messages and the state of one node. */
module RaftTypes {
  import opened Commands

  datatype NodeId = NodeId(id: nat)

  datatype Role = Follower | Candidate | Leader

  datatype LogEntry = LogEntry(term: nat, command: Command)

  /** Index 0 of every log holds this entry; it is never applied. */
  const SENTINEL := LogEntry(0, Set([], Str([])))

  /** The client a write must be answered to. */
  datatype Responder = RaftClient(clientId: NodeId, requestId: nat)

  /** The human-readable part of a client response. */
  datatype Note =
    | Applied(index: nat)
    | LeadershipChanged
    | NotLeader(leader: Option<NodeId>)
    | ReadFrom(node: NodeId)
    | StatusOk(role: Role)

  datatype Message =
    | RequestVote(term: nat, candidateId: NodeId, lastLogIndex: nat, lastLogTerm: nat)
    | RequestVoteResponse(term: nat, voterId: NodeId, voteGranted: bool)
    | AppendEntries(term: nat, leaderId: NodeId, prevLogIndex: nat, prevLogTerm: nat,
                    entries: seq<LogEntry>, leaderCommit: nat)
    | AppendEntriesResponse(term: nat, followerId: NodeId, success: bool, matchIndex: nat)
    | ClientCommand(command: Command)
    | ClientRequest(requestId: nat, clientId: NodeId, command: Command)
    | ClientQuery(requestId: nat, clientId: NodeId, key: Key)
    | StatusQuery(requestId: nat, clientId: NodeId)
    | ClientResponse(requestId: nat, success: bool, result: Option<Value>, note: Note, term: nat)
    | Timeout

  /** A message with its destination, as it stands in an outbox. */
  datatype Packet = Packet(dst: NodeId, msg: Message)

  /** Requests that enter the cluster from outside. */
  predicate IsClientMessage(m: Message) {
    m.ClientCommand? || m.ClientRequest? || m.ClientQuery? || m.StatusQuery? || m.ClientResponse? || m.Timeout?
  }

  datatype NodeState = NodeState(
    id: NodeId,
    peers: seq<NodeId>,
    currentTerm: nat,
    votedFor: Option<NodeId>,
    log: seq<LogEntry>,
    commitIndex: nat,
    lastApplied: nat,
    nextIndex: map<NodeId, nat>,
    matchIndex: map<NodeId, nat>,
    role: Role,
    votesReceived: set<NodeId>,
    leaderId: Option<NodeId>,
    pending: map<(nat, nat), Responder>,
    db: map<Key, Value>)

  /** What one handler does: the new state, and the packets it puts in the outbox. */
  datatype Effect = Effect(state: NodeState, sent: set<Packet>)

  function Fresh(id: NodeId, peers: seq<NodeId>): NodeState {
    NodeState(id, peers, 0, None, [SENTINEL], 0, 0, map[], map[], Follower, {}, None, map[], map[])
  }

  function Min(a: nat, b: nat): nat { if a <= b then a else b }

  function Max(a: nat, b: nat): nat { if a >= b then a else b }

  function SeqSet<T>(s: seq<T>): set<T> { set x | x in s }
}
