/** What the simulator's faults do to traffic, counted packet by packet over whole batches. */
module SimulatorLaws {
  import opened Commands
  import opened RaftTypes
  import opened Simulator

  /** Subtraction that stops at zero. */
  function Minus(a: nat, b: nat): nat { if a >= b then a - b else 0 }

  /** How many of the packets reach the link to `dst` at all. */
  function Load(l: Links, n: NodeId, packets: seq<Packet>, dst: NodeId): nat {
    if |packets| == 0 then 0
    else
      var p := packets[|packets| - 1];
      Load(l, n, packets[..|packets| - 1], dst) + if p.dst == dst && !Barred(l, n, p) then 1 else 0
  }

  /** A link's policy after k packets: first the drops are used up, then the duplicates. */
  function Spent(q: LinkPolicy, k: nat): LinkPolicy {
    q.(dropRemaining := Minus(q.dropRemaining, k),
       duplicateRemaining := Minus(q.duplicateRemaining, Minus(k, q.dropRemaining)))
  }

  lemma OneSpends(w: Wire, l: Links, n: NodeId, p: Packet, dst: NodeId)
    ensures var w' := RouteOne(w, l, n, p);
            PolicyIn(w'.policies, n, dst) ==
            Spent(PolicyIn(w.policies, n, dst), if p.dst == dst && !Barred(l, n, p) then 1 else 0)
  {}

  lemma SpentMore(q: LinkPolicy, k: nat, j: nat)
    ensures Spent(Spent(q, k), j) == Spent(q, k + j)
  {}

  /** After a batch, every link has used up as much of its policy as packets were put on it. */
  lemma {:induction false} BatchSpends(w: Wire, l: Links, n: NodeId, packets: seq<Packet>, dst: NodeId)
    ensures PolicyIn(RouteMany(w, l, n, packets).policies, n, dst) ==
            Spent(PolicyIn(w.policies, n, dst), Load(l, n, packets, dst))
  {
    hide RouteOne, Barred, PolicyIn, Spent;
    if |packets| == 0 {
      NoneSpent(PolicyIn(w.policies, n, dst));
    } else {
      var front, p := packets[..|packets| - 1], packets[|packets| - 1];
      BatchSpends(w, l, n, front, dst);
      OneSpends(RouteMany(w, l, n, front), l, n, p, dst);
      SpentMore(PolicyIn(w.policies, n, dst), Load(l, n, front, dst),
                if p.dst == dst && !Barred(l, n, p) then 1 else 0);
    }
  }

  lemma NoneSpent(q: LinkPolicy)
    ensures Spent(q, 0) == q
  {}

  /** The events that the j-th packet on a link becomes: none, one, or two. */
  function Copies(q: LinkPolicy, j: nat, now: nat, sequence: nat, n: NodeId, p: Packet): seq<SimEvent> {
    var at := now + if q.delay.Some? then q.delay.value else 0;
    if j < q.dropRemaining then []
    else [SimEvent(at, sequence, n, p.dst, p.msg)]
         + if j < q.dropRemaining + q.duplicateRemaining
           then [SimEvent(at + q.duplicateDelay, sequence + 1, n, p.dst, p.msg)] else []
  }

  /**
    The fate of each packet of a batch. With d drops and u duplicates left on its link when the batch begins, the
    first d packets on the link are lost, the next u are delivered twice, all others once; each after the link's
    delay, and in the order of sending.
  */
  lemma PacketFate(w: Wire, l: Links, n: NodeId, packets: seq<Packet>, i: nat)
    requires i < |packets|
    ensures var before, after := RouteMany(w, l, n, packets[..i]), RouteMany(w, l, n, packets[..i + 1]);
            var p := packets[i];
            var added := if Barred(l, n, p) then []
                       else Copies(PolicyIn(w.policies, n, p.dst), Load(l, n, packets[..i], p.dst), l.now,
                                   before.sequence, n, p);
            after.events == before.events + added && after.sequence == before.sequence + |added|
  {
    hide RouteOne, Barred, PolicyIn, Copies;
    var before, p := RouteMany(w, l, n, packets[..i]), packets[i];
    assert packets[..i + 1][..i] == packets[..i];
    BatchSpends(w, l, n, packets[..i], p.dst);
    OneRouted(before, l, n, p);
    SpentCopies(PolicyIn(w.policies, n, p.dst), Load(l, n, packets[..i], p.dst), l.now, before.sequence, n, p);
  }

  lemma OneRouted(w: Wire, l: Links, n: NodeId, p: Packet)
    ensures var w' := RouteOne(w, l, n, p);
            var added := if Barred(l, n, p) then []
                         else Copies(PolicyIn(w.policies, n, p.dst), 0, l.now, w.sequence, n, p);
            w'.events == w.events + added && w'.sequence == w.sequence + |added|
  {}

  lemma SpentCopies(q: LinkPolicy, j: nat, now: nat, sequence: nat, n: NodeId, p: Packet)
    ensures Copies(Spent(q, j), 0, now, sequence, n, p) == Copies(q, j, now, sequence, n, p)
  {}

  // ---------------------------------------------------------------- setting faults

  /** Which links are blocked after a fault, link by link. */
  lemma LinksAfter(w: Faults, fault: Fault, ids: set<NodeId>, x: NodeId, y: NodeId)
    ensures var was, blocks := (x, y) in w.blocked, (x, y) in SettingAfter(w, fault, ids).blocked;
            blocks <==> match fault
                    case BlockLink(a, b) => was || (x == a && y == b)
                    case UnblockLink(a, b) => was && !(x == a && y == b)
                    case Partition(a, b) => was || (x in a && y in b) || (x in b && y in a)
                    case HealAllPartitions => false
                    case IsolateNode(n) => was || (x == n && y != n && y in ids) || (y == n && x != n && x in ids)
                    case ReconnectNode(n) => was && !(x == n && y != n && y in ids) && !(y == n && x != n && x in ids)
                    case _ => was
  {}

  /** Which nodes are off or paused after a fault, node by node. */
  lemma NodesAfter(w: Faults, fault: Fault, ids: set<NodeId>, x: NodeId)
    ensures var w' := SettingAfter(w, fault, ids);
            && (x in w'.disabled <==>
                  fault == CrashNode(x) || (x in w.disabled && fault != RestartNode(x)))
            && (x in w'.paused <==>
                  fault == PauseNode(x) || (x in w.paused && fault != ResumeNode(x) && fault != RestartNode(x)))
            && (x in w'.pausedEvents <==>
                  x in w.pausedEvents && fault != ResumeNode(x) && fault != RestartNode(x))
            && (x in w'.pausedEvents ==> w'.pausedEvents[x] == w.pausedEvents[x])
  {
    hide BothWays;
  }

  /** Isolating a node that was connected to all others and reconnecting it changes no link. */
  lemma IsolateReconnect(w: Faults, n: NodeId, ids: set<NodeId>)
    requires forall x :: x in ids ==> (n, x) !in w.blocked && (x, n) !in w.blocked
    ensures SettingAfter(SettingAfter(w, IsolateNode(n), ids), ReconnectNode(n), ids) == w
  {
    var w1 := SettingAfter(w, IsolateNode(n), ids);
    var w2 := SettingAfter(w1, ReconnectNode(n), ids);
    forall x, y ensures (x, y) in w2.blocked <==> (x, y) in w.blocked {
      LinksAfter(w, IsolateNode(n), ids, x, y);
      LinksAfter(w1, ReconnectNode(n), ids, x, y);
    }
    SameLinks(w2.blocked, w.blocked);
  }

  lemma SameLinks(a: set<(NodeId, NodeId)>, b: set<(NodeId, NodeId)>)
    requires forall x, y :: (x, y) in a <==> (x, y) in b
    ensures a == b
  {
    forall l ensures l in a <==> l in b {
      assert (l.0, l.1) == l;
    }
  }

  /** A link's policy after a fault, link by link: drops and duplicates add up, a delay replaces the last one. */
  lemma PolicyAfter(policies: map<(NodeId, NodeId), LinkPolicy>, fault: Fault, x: NodeId, y: NodeId)
    ensures var q, q' := PolicyIn(policies, x, y), PolicyIn(PoliciesAfter(policies, fault), x, y);
            q' == match fault
                  case DropPackets(a, b, k) =>
                    if x == a && y == b then q.(dropRemaining := q.dropRemaining + k) else q
                  case DelayLink(a, b, t) => if x == a && y == b then q.(delay := Some(t)) else q
                  case ClearLinkDelay(a, b) => if x == a && y == b then q.(delay := None) else q
                  case DuplicatePackets(a, b, k, t) =>
                    if x == a && y == b
                    then LinkPolicy(q.dropRemaining, q.delay, q.duplicateRemaining + k, t) else q
                  case _ => q
  {}

  /**
    A drop fault of k packets on a link: exactly the next k packets on it are lost, over and above those due before.
  */
  lemma DropsExactly(w: Wire, l: Links, n: NodeId, dst: NodeId, k: nat, packets: seq<Packet>, i: nat)
    requires i < |packets| && packets[i].dst == dst && !Barred(l, n, packets[i])
    ensures var w1 := w.(policies := PoliciesAfter(w.policies, DropPackets(n, dst, k)));
            RouteMany(w1, l, n, packets[..i + 1]).events == RouteMany(w1, l, n, packets[..i]).events <==>
            Load(l, n, packets[..i], dst) < PolicyIn(w.policies, n, dst).dropRemaining + k
  {
    hide RouteMany, PoliciesAfter, PolicyIn, Load, Barred;
    var w1 := w.(policies := PoliciesAfter(w.policies, DropPackets(n, dst, k)));
    PolicyAfter(w.policies, DropPackets(n, dst, k), n, dst);
    PacketFate(w1, l, n, packets, i);
  }
}
