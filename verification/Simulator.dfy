/**
  The deterministic simulator: real node objects, an event heap, faults and a clock.

  `trace` is the run of the abstract cluster that the simulation has carried out so far. Every operation
  only extends it, so everything proved about runs holds of the simulator, and its own invariant check
  can never fail.
*/
module Simulator {
  import opened Commands
  import opened RaftTypes
  import opened RaftHandlers
  import opened RaftCluster
  import opened RaftTheorems
  import opened RaftRuns
  import opened RaftNodeModule
  import opened SimulatorChecks
  import opened RaftSubmitted
  import opened ByteForms

  datatype SimEvent = SimEvent(deliverAt: nat, sequence: nat, from: NodeId, to: NodeId, message: Message)

  datatype LinkPolicy = LinkPolicy(dropRemaining: nat, delay: Option<nat>, duplicateRemaining: nat, duplicateDelay: nat)

  const NO_POLICY := LinkPolicy(0, None, 0, 0)

  datatype Fault =
    | CrashNode(node: NodeId)
    | RestartNode(node: NodeId)
    | PauseNode(node: NodeId)
    | ResumeNode(node: NodeId)
    | BlockLink(from: NodeId, to: NodeId)
    | UnblockLink(from: NodeId, to: NodeId)
    | Partition(groupA: set<NodeId>, groupB: set<NodeId>)
    | HealAllPartitions
    | IsolateNode(node: NodeId)
    | ReconnectNode(node: NodeId)
    | DropPackets(from: NodeId, to: NodeId, count: nat)
    | DelayLink(from: NodeId, to: NodeId, delay: nat)
    | ClearLinkDelay(from: NodeId, to: NodeId)
    | DuplicatePackets(from: NodeId, to: NodeId, count: nat, delay: nat)
    | TriggerElection(node: NodeId)
    | SubmitCommand(node: NodeId, command: Command)

  datatype ScheduledFault = ScheduledFault(triggerAt: nat, sequence: nat, fault: Fault)

  /** One round of the chaos test, with the random choices made: a write, a fault, and time or a delivery. */
  datatype ChaosStep = ChaosStep(write: Option<Fault>, fault: Option<Fault>, advance: Option<nat>, due: set<NodeId>)

  // ---------------------------------------------------------------- the heaps' order

  predicate NotAfter(a: (nat, nat), b: (nat, nat)) { a.0 < b.0 || (a.0 == b.0 && a.1 <= b.1) }

  method Earliest(keys: seq<(nat, nat)>) returns (k: nat)
    requires |keys| > 0
    ensures k < |keys| && forall j :: 0 <= j < |keys| ==> NotAfter(keys[k], keys[j])
  {
    k := 0;
    for i := 1 to |keys|
      invariant k < i && forall j :: 0 <= j < i ==> NotAfter(keys[k], keys[j])
    {
      if !NotAfter(keys[k], keys[i]) {
        k := i;
      }
    }
  }

  /** The same events, due at `now`. */
  function Redated(es: seq<SimEvent>, now: nat): (r: seq<SimEvent>)
    ensures |r| == |es| && forall i :: 0 <= i < |es| ==> r[i] == es[i].(deliverAt := now)
  {
    seq(|es|, i requires 0 <= i < |es| => es[i].(deliverAt := now))
  }

  /** Both directions of every link between the two groups. */
  function BothWays(a: set<NodeId>, b: set<NodeId>): set<(NodeId, NodeId)> {
    (set x, y | x in a && y in b :: (x, y)) + (set x, y | x in a && y in b :: (y, x))
  }

  // ---------------------------------------------------------------- the wire

  /** What is queued, the next sequence number, and what is left of the faults on each link. */
  datatype Wire = Wire(events: seq<SimEvent>, sequence: nat, policies: map<(NodeId, NodeId), LinkPolicy>)

  /** The state of the network that routing reads. */
  datatype Links = Links(now: nat, blocked: set<(NodeId, NodeId)>, disabled: set<NodeId>)

  /** A packet that cannot be sent at all: a timeout, a blocked link, a node that is off. */
  predicate Barred(l: Links, n: NodeId, p: Packet) {
    p.msg.Timeout? || (n, p.dst) in l.blocked || p.dst in l.disabled
  }

  /** One packet on the wire: dropped, delayed and doubled as the policy of its link says, which is used up by it. */
  function RouteOne(w: Wire, l: Links, n: NodeId, p: Packet): Wire {
    var link := (n, p.dst);
    var policy := if link in w.policies then w.policies[link] else NO_POLICY;
    var at := l.now + if policy.delay.Some? then policy.delay.value else 0;
    var first := SimEvent(at, w.sequence, n, p.dst, p.msg);
    if Barred(l, n, p) then w
    else if policy.dropRemaining > 0 then
      w.(policies := w.policies[link := policy.(dropRemaining := policy.dropRemaining - 1)])
    else if policy.duplicateRemaining > 0 then
      Wire(w.events + [first, SimEvent(at + policy.duplicateDelay, w.sequence + 1, n, p.dst, p.msg)], w.sequence + 2,
           w.policies[link := policy.(duplicateRemaining := policy.duplicateRemaining - 1)])
    else Wire(w.events + [first], w.sequence + 1, w.policies)
  }

  function RouteMany(w: Wire, l: Links, n: NodeId, packets: seq<Packet>): Wire {
    if |packets| == 0 then w
    else RouteOne(RouteMany(w, l, n, packets[..|packets| - 1]), l, n, packets[|packets| - 1])
  }

  /** The event that carries `p` at once is among `es`. */
  predicate Carried(es: seq<SimEvent>, now: nat, n: NodeId, p: Packet) {
    exists e :: e in es && e.deliverAt == now && e.from == n && e.to == p.dst && e.message == p.msg
  }

  predicate Sends(l: Links, n: NodeId, packets: seq<Packet>, e: SimEvent) {
    e.from == n && Packet(e.to, e.message) in packets && !Barred(l, n, Packet(e.to, e.message)) && e.deliverAt >= l.now
  }

  lemma RouteOneSends(w: Wire, l: Links, n: NodeId, p: Packet)
    ensures var w' := RouteOne(w, l, n, p);
            && w.events <= w'.events && w'.policies.Keys == w.policies.Keys && |w'.events| <= |w.events| + 2
            && (forall e :: e in w'.events[|w.events|..] ==> Sends(l, n, [p], e))
            && (!Barred(l, n, p) && (n, p.dst) !in w.policies ==> Carried(w'.events, l.now, n, p))
  {
    var w' := RouteOne(w, l, n, p);
    if !Barred(l, n, p) && (n, p.dst) !in w.policies {
      assert w'.events[|w.events|] in w'.events;
    }
  }

  /** Nothing is invented, nothing is sent more than twice, and nothing is lost on a link that no fault touches. */
  lemma {:induction false} RouteManySends(w: Wire, l: Links, n: NodeId, packets: seq<Packet>)
    ensures var w' := RouteMany(w, l, n, packets);
            && w.events <= w'.events && w'.policies.Keys == w.policies.Keys && |w'.events| <= |w.events| + 2 * |packets|
            && (forall e :: e in w'.events[|w.events|..] ==> Sends(l, n, packets, e))
            && (forall p :: p in packets && !Barred(l, n, p) && (n, p.dst) !in w.policies ==>
                  Carried(w'.events, l.now, n, p))
  {
    hide RouteOne, Barred, Carried;
    if |packets| > 0 {
      var before, p := packets[..|packets| - 1], packets[|packets| - 1];
      assert packets == before + [p];
      var u := RouteMany(w, l, n, before);
      RouteManySends(w, l, n, before);
      RouteOneSends(u, l, n, p);
      var w' := RouteOne(u, l, n, p);
      assert w'.events[|w.events|..] == u.events[|w.events|..] + w'.events[|u.events|..];
      forall q | q in before && !Barred(l, n, q) && (n, q.dst) !in w.policies ensures Carried(w'.events, l.now, n, q) {
        CarriedMore(u.events, w'.events, l.now, n, q);
      }
    }
  }

  lemma CarriedMore(es: seq<SimEvent>, es': seq<SimEvent>, now: nat, n: NodeId, p: Packet)
    requires Carried(es, now, n, p) && es <= es'
    ensures Carried(es', now, n, p)
  {}

  // ---------------------------------------------------------------- ticking

  /** The nodes that are up and whose deadline has passed. */
  function Ticking(ids: set<NodeId>, due: set<NodeId>, disabled: set<NodeId>, paused: set<NodeId>): set<NodeId> {
    ids * due - disabled - paused
  }

  /** A leader sends heartbeats, any other node stands for election. */
  ghost predicate TickStep(c: Cluster, n: NodeId, c': Cluster) {
    n in c.nodes && StepBy(c, TickOf(c, n), c')
  }

  function TickOf(c: Cluster, n: NodeId): Event {
    if n in c.nodes && c.nodes[n].role == Leader then Heartbeat(n) else Elect(n)
  }

  /** From position `first` on the run consists of one tick of each node of `order`. */
  ghost predicate Ticked(trace: seq<Cluster>, first: nat, order: seq<NodeId>) {
    && 0 < first && |trace| == first + |order|
    && forall i :: 0 <= i < |order| ==> TickStep(trace[first + i - 1], order[i], trace[first + i])
  }

  lemma TickedMore(trace: seq<Cluster>, trace': seq<Cluster>, first: nat, order: seq<NodeId>, n: NodeId)
    requires Ticked(trace, first, order) && trace <= trace' && |trace'| == |trace| + 1
    requires TickStep(trace[|trace| - 1], n, trace'[|trace'| - 1])
    ensures Ticked(trace', first, order + [n])
  {
    hide TickStep;
    var order' := order + [n];
    forall i | 0 <= i < |order'| ensures TickStep(trace'[first + i - 1], order'[i], trace'[first + i]) {
      if i < |order| { assert TickStep(trace[first + i - 1], order[i], trace[first + i]); }
    }
  }

  lemma NothingTicked(trace: seq<Cluster>)
    requires |trace| > 0
    ensures Ticked(trace, |trace|, []) && NoRepeats<NodeId>([])
  {}

  lemma NoTicks(due: set<NodeId>, disabled: set<NodeId>, paused: set<NodeId>)
    ensures Ticking(SeqSet([]), due, disabled, paused) == {} && SeqSet<NodeId>([]) == {}
  {}

  lemma OneMoreTick(ids: seq<NodeId>, i: nat, due: set<NodeId>, disabled: set<NodeId>, paused: set<NodeId>,
                    order: seq<NodeId>)
    requires NoRepeats(ids) && i < |ids| && NoRepeats(order)
             && SeqSet(order) == Ticking(SeqSet(ids[..i]), due, disabled, paused)
    ensures var order' := if ids[i] in due && ids[i] !in disabled && ids[i] !in paused then order + [ids[i]] else order;
            NoRepeats(order') && SeqSet(order') == Ticking(SeqSet(ids[..i + 1]), due, disabled, paused)
  {
    assert ids[i] !in SeqSet(ids[..i]);
    assert ids[..i + 1] == ids[..i] + [ids[i]];
    SeqSetPush(ids[..i], ids[i]);
    SeqSetPush(order, ids[i]);
    TickingAdd(SeqSet(ids[..i]), ids[i], due, disabled, paused);
    assert forall j :: 0 <= j < |order| ==> order[j] in SeqSet(order);
    assert ids[i] !in SeqSet(order) by { TicksAreNodes(SeqSet(ids[..i]), due, disabled, paused); }
    hide SeqSet, Ticking;
  }

  lemma TicksAreNodes(ids: set<NodeId>, due: set<NodeId>, disabled: set<NodeId>, paused: set<NodeId>)
    ensures Ticking(ids, due, disabled, paused) <= ids
  {}

  lemma TickingAdd(ids: set<NodeId>, n: NodeId, due: set<NodeId>, disabled: set<NodeId>, paused: set<NodeId>)
    ensures Ticking(ids + {n}, due, disabled, paused) ==
            Ticking(ids, due, disabled, paused) + if n in due && n !in disabled && n !in paused then {n} else {}
  {}

  // ---------------------------------------------------------------- the order of faults

  predicate Before(f: ScheduledFault, g: ScheduledFault) {
    NotAfter((f.triggerAt, f.sequence), (g.triggerAt, g.sequence))
  }

  predicate InOrder(fs: seq<ScheduledFault>) { forall i, j :: 0 <= i < j < |fs| ==> Before(fs[i], fs[j]) }

  lemma NoFaultsApplied()
    ensures InOrder([])
  {}

  lemma AppliedNext(fs: seq<ScheduledFault>, f: ScheduledFault)
    requires InOrder(fs) && forall g :: g in fs ==> Before(g, f)
    ensures InOrder(fs + [f])
  {
    hide Before;
  }

  lemma LaterToo(fs: seq<ScheduledFault>, f: ScheduledFault, now: nat)
    requires f.triggerAt > now && forall g :: g in fs ==> Before(f, g)
    ensures forall g :: g in fs ==> g.triggerAt > now
  {
    forall g | g in fs ensures g.triggerAt > now {
      assert Before(f, g);
    }
  }

  // ---------------------------------------------------------------- what a fault sets

  /** Which nodes are off or paused, what waits for the paused ones, and which links are blocked. */
  datatype Faults = Faults(disabled: set<NodeId>, paused: set<NodeId>, pausedEvents: map<NodeId, seq<SimEvent>>,
                           blocked: set<(NodeId, NodeId)>)

  /** Each fault sets what it names and leaves the rest. */
  function SettingAfter(w: Faults, fault: Fault, ids: set<NodeId>): Faults {
    match fault
    case CrashNode(n) => w.(disabled := w.disabled + {n})
    case RestartNode(n) =>
      w.(disabled := w.disabled - {n}, paused := w.paused - {n}, pausedEvents := w.pausedEvents - {n})
    case PauseNode(n) => w.(paused := w.paused + {n})
    case ResumeNode(n) => w.(paused := w.paused - {n}, pausedEvents := w.pausedEvents - {n})
    case BlockLink(from, to) => w.(blocked := w.blocked + {(from, to)})
    case UnblockLink(from, to) => w.(blocked := w.blocked - {(from, to)})
    case Partition(a, b) => w.(blocked := w.blocked + BothWays(a, b))
    case HealAllPartitions => w.(blocked := {})
    case IsolateNode(n) => w.(blocked := w.blocked + BothWays({n}, ids - {n}))
    case ReconnectNode(n) => w.(blocked := w.blocked - BothWays({n}, ids - {n}))
    case _ => w
  }

  function PolicyIn(policies: map<(NodeId, NodeId), LinkPolicy>, from: NodeId, to: NodeId): LinkPolicy {
    if (from, to) in policies then policies[(from, to)] else NO_POLICY
  }

  /** Each link fault changes its own part of its own link's policy. */
  function PoliciesAfter(policies: map<(NodeId, NodeId), LinkPolicy>, fault: Fault): map<(NodeId, NodeId), LinkPolicy> {
    match fault
    case DropPackets(from, to, count) =>
      var policy := PolicyIn(policies, from, to);
      policies[(from, to) := policy.(dropRemaining := policy.dropRemaining + count)]
    case DelayLink(from, to, delay) => policies[(from, to) := PolicyIn(policies, from, to).(delay := Some(delay))]
    case ClearLinkDelay(from, to) =>
      if (from, to) in policies then policies[(from, to) := policies[(from, to)].(delay := None)] else policies
    case DuplicatePackets(from, to, count, delay) =>
      var policy := PolicyIn(policies, from, to);
      policies[(from, to) := policy.(duplicateRemaining := policy.duplicateRemaining + count, duplicateDelay := delay)]
    case _ => policies
  }

  /** What a fault adds to the run: a restart, an election, a submitted command and its handling, or nothing. */
  ghost predicate FaultStep(fault: Fault, before: seq<Cluster>, after: seq<Cluster>, ids: set<NodeId>,
                            down: set<NodeId>) {
    && before <= after && |before| > 0
    && match fault
       case RestartNode(n) =>
         if n in ids then |after| == |before| + 1 && StepBy(before[|before| - 1], Reboot(n), after[|before|])
         else after == before
       case TriggerElection(n) =>
         if n in ids && n !in down
         then |after| == |before| + 1 && StepBy(before[|before| - 1], Elect(n), after[|before|])
         else after == before
       case SubmitCommand(n, c) =>
         if n in ids
         then |after| == |before| + 2
             && StepBy(after[|before|], Deliver(Packet(n, ClientCommand(c))), after[|before| + 1])
         else after == before
       case _ => after == before
  }

  /** The setting after a list of faults. */
  function SettingsAfter(w: Faults, fs: seq<ScheduledFault>, ids: set<NodeId>): Faults {
    if |fs| == 0 then w
    else SettingAfter(SettingsAfter(w, fs[..|fs| - 1], ids), fs[|fs| - 1].fault, ids)
  }

  /** The run in stages, one for each fault of the list: what that fault adds to it. */
  ghost predicate Staged(w: Faults, fs: seq<ScheduledFault>, ids: set<NodeId>, stages: seq<seq<Cluster>>) {
    && |stages| == |fs| + 1
    && forall i :: 0 <= i < |fs| ==>
         var w' := SettingsAfter(w, fs[..i + 1], ids);
         FaultStep(fs[i].fault, stages[i], stages[i + 1], ids, w'.disabled + w'.paused)
  }

  lemma StagedMore(w: Faults, fs: seq<ScheduledFault>, ids: set<NodeId>, stages: seq<seq<Cluster>>, f: ScheduledFault,
                   trace: seq<Cluster>)
    requires Staged(w, fs, ids, stages)
    requires var w' := SettingAfter(SettingsAfter(w, fs, ids), f.fault, ids);
             FaultStep(f.fault, stages[|fs|], trace, ids, w'.disabled + w'.paused)
    ensures Staged(w, fs + [f], ids, stages + [trace])
    ensures SettingsAfter(w, fs + [f], ids) == SettingAfter(SettingsAfter(w, fs, ids), f.fault, ids)
  {
    hide FaultStep, SettingAfter;
    var fs' := fs + [f];
    assert fs'[..|fs|] == fs && fs'[..|fs'|] == fs';
    forall i | 0 <= i < |fs'|
      ensures var w' := SettingsAfter(w, fs'[..i + 1], ids);
              FaultStep(fs'[i].fault, (stages + [trace])[i], (stages + [trace])[i + 1], ids, w'.disabled + w'.paused)
    {
      if i < |fs| { assert fs'[..i + 1] == fs[..i + 1]; }
    }
  }

  /** The faults that put events on the wire. */
  predicate Acts(f: Fault) { f.ResumeNode? || f.TriggerElection? || f.SubmitCommand? }

  lemma SettingOf(w: Faults, f: Fault, ids: set<NodeId>)
    ensures f.CrashNode? ==> SettingAfter(w, f, ids) == w.(disabled := w.disabled + {f.node})
    ensures f.RestartNode? ==>
              SettingAfter(w, f, ids) == w.(disabled := w.disabled - {f.node}, paused := w.paused - {f.node},
                                            pausedEvents := w.pausedEvents - {f.node})
    ensures f.ResumeNode? ==>
              SettingAfter(w, f, ids) == w.(paused := w.paused - {f.node}, pausedEvents := w.pausedEvents - {f.node})
    ensures f.TriggerElection? || f.SubmitCommand? ==> SettingAfter(w, f, ids) == w
  {}

  lemma PoliciesOf(policies: map<(NodeId, NodeId), LinkPolicy>, f: Fault)
    ensures f.CrashNode? || f.RestartNode? ==> PoliciesAfter(policies, f) == policies
  {}

  // ---------------------------------------------------------------- the nodes

  predicate CleanFault(f: Fault) { f.SubmitCommand? ==> !HoldsNaN(f.command) }

  predicate CleanStep(x: ChaosStep) {
    (x.write.Some? ==> CleanFault(x.write.value)) && (x.fault.Some? ==> CleanFault(x.fault.value))
  }

  /** A reported violation is two equal entries with a NaN. */
  lemma OnlyNaN(t: Text, cs: seq<Cluster>, i: nat, list: seq<NodeState>, v: Verdict)
    requires Run(cs) && i < |cs| && Lists(cs[i], list) && v.StateSafetyViolation? && Truthful(t, list, v)
    ensures v.entryA == v.entryB && HoldsNaN(v.entryA)
  {
    hide Run, SamePayload, HoldsNaN;
    var a, b :| 0 <= a < b < |list| && list[a].id == v.a && list[b].id == v.b && Shared(list[a], list[b], v.index)
                && list[a].log[v.index].command == v.entryA && list[b].log[v.index].command == v.entryB;
    PairSafe(t, cs, i, list[a], list[b]);
    SelfSame(t, v.entryA);
  }

  lemma StepKeepsClean(c: Cluster, e: Event, c': Cluster)
    requires StepBy(c, e, c') && !e.Submit? && NoNaNSent(c.net)
    ensures NoNaNSent(c'.net)
  {
    hide StepBy, HoldsNaN;
    forall p | p in c'.net && IsWrite(p) ensures !HoldsNaN(p.msg.command) {
      StepWrites(c, e, c', p);
      var q :| q in c.net && Carries(q, p.msg.command);
    }
  }

  predicate Queued(es: seq<SimEvent>, net: set<Packet>) {
    forall e :: e in es ==> Packet(e.to, e.message) in net
  }

  /** One event at one node object. */
  method Perform(node: RaftNode, e: Event)
    requires !e.Submit? && NoPanic(node.View(), e)
    modifies node
    ensures var x := Transition(old(node.View()), e);
            node.View() == x.state && node.Sent() == if e.Reboot? then {} else old(node.Sent()) + x.sent
  {
    hide HandleMessage, StartElection, Heartbeats, Restart, LeaderReady, ResponseInRange, SeqSet;
    match e {
      case Deliver(p) => node.OnMessage(p.msg);
      case Elect(_) => node.RunForElection();
      case Heartbeat(_) => if node.role == Leader { node.SendHeartbeats(); }
      case Reboot(_) =>
        node.RestartInPlace();
        assert node.Sent() == {} by { SentNothing(); }
    }
  }

  /** What the node of event `e` sends in it. */
  ghost function SentBy(c: Cluster, e: Event): set<Packet> {
    if !e.Submit? && Target(e) in c.nodes && NoPanic(c.nodes[Target(e)], e)
    then Transition(c.nodes[Target(e)], e).sent else {}
  }

  lemma SentNothing()
    ensures SeqSet<Packet>([]) == {}
  {}

  lemma FirstRun(cs: seq<Cluster>)
    requires |cs| == 1 && Init(cs[0])
    ensures Run(cs)
  {
    hide Init;
  }

  lemma SentNothingAt(node: RaftNode)
    requires node.outbox == []
    ensures node.Sent() == {}
  {}

  lemma FreshId(node: RaftNode, n: NodeId, peers: seq<NodeId>)
    requires node.View() == Fresh(n, peers)
    ensures node.id == n
  {}

  lemma IdOf(node: RaftNode)
    ensures node.View().id == node.id
  {}

  /** The other ids, in order. */
  function Others(ids: seq<NodeId>, n: NodeId): (peers: seq<NodeId>)
    ensures forall p :: p in peers <==> p in ids && p != n
  {
    if |ids| == 0 then []
    else Others(ids[..|ids| - 1], n) + if ids[|ids| - 1] == n then [] else [ids[|ids| - 1]]
  }

  predicate NoRepeats<T(==)>(s: seq<T>) { forall i, j :: 0 <= i < j < |s| ==> s[i] != s[j] }

  lemma {:induction false} SeqSetCount<T>(s: seq<T>)
    requires NoRepeats(s)
    ensures |SeqSet(s)| == |s|
  {
    if |s| > 0 {
      var rest := s[..|s| - 1];
      SeqSetCount(rest);
      assert s == rest + [s[|s| - 1]];
      assert SeqSet(s) == SeqSet(rest) + {s[|s| - 1]};
    }
  }

  function FirstHistory(ids: set<NodeId>): History {
    History(map[0 := [SENTINEL]], map[], map[], map q | q in ids :: (q, 0) := 0, map[], {})
  }

  lemma {:induction false} SeqSetSize<T>(s: seq<T>)
    ensures |SeqSet(s)| <= |s|
  {
    if |s| > 0 {
      var rest := s[..|s| - 1];
      SeqSetSize(rest);
      assert s == rest + [s[|s| - 1]];
      assert SeqSet(s) == SeqSet(rest) + {s[|s| - 1]};
    }
  }

  lemma OthersArePeers(ids: seq<NodeId>, n: NodeId)
    requires n in ids
    ensures PeersOf(SeqSet(ids), n, Others(ids, n))
  {
    assert SeqSet(Others(ids, n)) == SeqSet(ids) - {n};
    SeqSetSize(Others(ids, n));
  }

  lemma InitialCluster(ids: seq<NodeId>, views: map<NodeId, NodeState>)
    requires views.Keys == SeqSet(ids) && forall n :: n in views ==> views[n] == Fresh(n, Others(ids, n))
    ensures Init(Cluster(SeqSet(ids), views, {}, FirstHistory(SeqSet(ids))))
  {
    hide PeersOf, Others;
    forall n | n in ids ensures PeersOf(SeqSet(ids), n, Others(ids, n)) {
      OthersArePeers(ids, n);
    }
  }

  method MakeNodes(ids: seq<NodeId>) returns (made: map<NodeId, RaftNode>)
    ensures made.Keys == SeqSet(ids)
    ensures forall a, b :: a in made && b in made && a != b ==> made[a] != made[b]
    ensures forall n :: n in made ==>
              fresh(made[n]) && made[n].id == n && made[n].View() == Fresh(n, Others(ids, n)) && made[n].Sent() == {}
  {
    hide RaftNode.View, RaftNode.Sent, Fresh, Others;
    made := map[];
    for i := 0 to |ids|
      invariant made.Keys == SeqSet(ids[..i])
      invariant forall a, b :: a in made && b in made && a != b ==> made[a] != made[b]
      invariant forall n :: n in made ==>
                  fresh(made[n]) && made[n].id == n && made[n].View() == Fresh(n, Others(ids, n))
                      && made[n].Sent() == {}
    {
      assert ids[..i + 1] == ids[..i] + [ids[i]];
      var node := new RaftNode(ids[i], Others(ids, ids[i]));
      assert node.id == ids[i] by { FreshId(node, ids[i], Others(ids, ids[i])); }
      assert node.Sent() == {} by { SentNothingAt(node); }
      made := made[ids[i] := node];
    }
    assert ids[..|ids|] == ids;
  }

  class Simulation {
    const nodes: map<NodeId, RaftNode>
    var now: nat
    var events: seq<SimEvent>
    var sequence: nat
    var disabled: set<NodeId>
    var paused: set<NodeId>
    var pausedEvents: map<NodeId, seq<SimEvent>>
    var blocked: set<(NodeId, NodeId)>
    var policies: map<(NodeId, NodeId), LinkPolicy>
    var scheduled: seq<ScheduledFault>
    var faultSequence: nat
    ghost var trace: seq<Cluster>

    // -------------------------------------------------------------- invariant

    ghost predicate Distinct() {
      && (forall a, b :: a in nodes && b in nodes && a != b ==> nodes[a] != nodes[b])
      && forall n :: n in nodes ==> nodes[n].id == n
    }

    ghost function Views(): map<NodeId, NodeState>
      reads nodes.Values
    {
      map n | n in nodes :: nodes[n].View()
    }

    ghost function Net(): set<Packet>
      reads this`trace
      requires |trace| > 0
    {
      trace[|trace| - 1].net
    }

    ghost function Outboxes(): (r: map<NodeId, set<Packet>>)
      reads nodes.Values
      ensures r.Keys == nodes.Keys
    {
      map n | n in nodes :: nodes[n].Sent()
    }

    /** The node objects are in the last state of the run, and what they wait to send has been sent there. */
    ghost predicate Mirrors()
      reads this`trace, nodes.Values
    {
      && |trace| > 0 && Run(trace)
      && trace[|trace| - 1].nodes == Views() && trace[|trace| - 1].ids == nodes.Keys
      && forall n :: n in nodes ==> Outboxes()[n] <= Net()
    }

    ghost predicate Valid()
      reads this, nodes.Values
    {
      && Distinct()
      && |trace| > 0 && Mirrors()
      && Queued(events, Net())
      && forall n :: n in pausedEvents ==> Queued(pausedEvents[n], Net())
    }

    /** The last cluster state of the run. */
    ghost function Last(): Cluster
      reads this`trace
      requires |trace| > 0
    {
      trace[|trace| - 1]
    }

    /** No client has written a NaN, and no fault to come does. */
    ghost predicate Clean()
      reads this
    {
      |trace| > 0 && NoNaNSent(Net()) && forall f :: f in scheduled ==> CleanFault(f.fault)
    }

    twostate predicate StaysClean()
      reads this
    {
      old(Clean()) ==> Clean()
    }

    /** The run has only been extended. */
    twostate predicate Extended()
      reads this`trace
    {
      old(trace) <= trace && |old(trace)| > 0 && old(Net()) <= Net()
    }

    /** A cluster of fresh nodes, each with all the others as peers. */
    constructor NewCluster(ids: seq<NodeId>)
      ensures Valid() && nodes.Keys == SeqSet(ids) && events == [] && fresh(nodes.Values)
      ensures forall n :: n in nodes ==> nodes[n].View() == Fresh(n, Others(ids, n))
    {
      hide Run, RaftNode.View, RaftNode.Sent, Fresh, Others, Init, FirstHistory, SeqSet;
      var made := MakeNodes(ids);
      nodes := made;
      now, events, sequence, disabled, paused, pausedEvents := 0, [], 0, {}, {}, map[];
      blocked, policies, scheduled, faultSequence := {}, map[], [], 0;
      new;
      InitialCluster(ids, Views());
      trace := [Cluster(SeqSet(ids), Views(), {}, FirstHistory(SeqSet(ids)))];
      FirstRun(trace);
    }

    // -------------------------------------------------------------- one node acts

    method MoveNode(n: NodeId, e: Event)
      requires Distinct() && n in nodes && !e.Submit? && NoPanic(nodes[n].View(), e)
      modifies nodes[n]
      ensures var x := Transition(old(nodes[n].View()), e);
              && Views() == old(Views())[n := x.state]
              && Outboxes() == old(Outboxes())[n := if e.Reboot? then {} else old(Outboxes())[n] + x.sent]
    {
      hide Transition, NoPanic, RaftNode.View, RaftNode.Sent;
      ghost var x := Transition(nodes[n].View(), e);
      ghost var views := Views()[n := x.state];
      ghost var outboxes := Outboxes()[n := if e.Reboot? then {} else Outboxes()[n] + x.sent];
      Perform(nodes[n], e);
      forall k | k in nodes ensures nodes[k].View() == views[k] && nodes[k].Sent() == outboxes[k] {}
      assert Views() == views && Outboxes() == outboxes;
    }

    /** Node `n` takes a step, which the run records. */
    method Act(n: NodeId, e: Event)
      requires Valid() && n in nodes && n == Target(e) && !e.Submit? && Enabled(Last(), e)
      modifies this`trace, nodes[n]
      ensures Valid() && Extended() && StaysClean() && |trace| == |old(trace)| + 1 && StepBy(old(Last()), e, Last())
      ensures !e.Reboot? ==> SentBy(old(Last()), e) <= nodes[n].Sent()
    {
      hide Run, Mirrors, StepBy, NoNaNSent, RaftNode.View, RaftNode.Sent, SentBy;
      ghost var c := Last();
      Advance(n, e);
      if NoNaNSent(c.net) { StepKeepsClean(c, e, Last()); }
    }

    method Advance(n: NodeId, e: Event)
      requires Valid() && n in nodes && n == Target(e) && !e.Submit? && Enabled(Last(), e)
      modifies this`trace, nodes[n]
      ensures Valid() && Extended() && |trace| == |old(trace)| + 1 && StepBy(old(Last()), e, Last())
      ensures !e.Reboot? ==> SentBy(old(Last()), e) <= nodes[n].Sent()
    {
      hide Run, Transition, NoPanic, RaftNode.View, RaftNode.Sent, Next;
      ghost var c' := Extend(trace, e, nodes[n].View());
      hide Views, Outboxes;
      MoveNode(n, e);
      trace := trace + [c'];
    }

    /** A client command enters the network and is handled at once. */
    method SubmitAt(n: NodeId, c: Command)
      requires Valid() && n in nodes
      modifies this`trace, nodes[n]
      ensures Valid() && Extended() && |trace| == |old(trace)| + 2 && (!HoldsNaN(c) ==> StaysClean())
      ensures StepBy(trace[|trace| - 2], Deliver(Packet(n, ClientCommand(c))), Last())
      ensures SentBy(trace[|trace| - 2], Deliver(Packet(n, ClientCommand(c)))) <= nodes[n].Sent()
    {
      hide Run, Views, Outboxes, RaftNode.View, RaftNode.Sent, SentBy;
      ghost var c' := ExtendSubmit(trace, Packet(n, ClientCommand(c)));
      trace := trace + [c'];
      Act(n, Deliver(Packet(n, ClientCommand(c))));
    }

    method EmptyOutbox(n: NodeId) returns (packets: seq<Packet>)
      requires Distinct() && n in nodes
      modifies nodes[n]
      ensures Views() == old(Views()) && Outboxes() == old(Outboxes())[n := {}] && SeqSet(packets) == old(Outboxes())[n]
      ensures packets == old(nodes[n].outbox) && nodes[n].outbox == []
    {
      hide RaftNode.View, RaftNode.Sent, SeqSet;
      packets := nodes[n].TakeOutbox();
      forall k | k in nodes && k != n
        ensures nodes[k].View() == old(nodes[k].View()) && nodes[k].Sent() == old(nodes[k].Sent())
      {}
    }

    /** What a node has put in its outbox has, for the cluster, been sent. */
    method Drain(n: NodeId) returns (packets: seq<Packet>)
      requires Valid() && n in nodes
      modifies nodes[n]
      ensures Valid() && packets == old(nodes[n].outbox) && nodes[n].outbox == []
      ensures forall p :: p in packets ==> p in Net()
    {
      hide Run, RaftNode.View, RaftNode.Sent, Views, Outboxes;
      packets := EmptyOutbox(n);
      assert forall p :: p in packets ==> p in SeqSet(packets);
    }

    // -------------------------------------------------------------- routing

    function Wired(): Wire
      reads this
    {
      Wire(events, sequence, policies)
    }

    function Network(): Links
      reads this
    {
      Links(now, blocked, disabled)
    }

    /** Every packet of `sent` that no fault holds up is queued from node `n`, due now. */
    ghost predicate OnWire(sent: set<Packet>, n: NodeId)
      reads this
    {
      forall p :: p in sent && !Barred(Network(), n, p) && (n, p.dst) !in policies ==> Carried(events, now, n, p)
    }

    /** Queue one packet, or lose it, as the faults on its link say. */
    method Route(n: NodeId, p: Packet)
      modifies this`events, this`sequence, this`policies
      ensures Wired() == RouteOne(old(Wired()), Network(), n, p)
    {
      if p.msg.Timeout? || (n, p.dst) in blocked || p.dst in disabled {
        return;
      }
      var at := now;
      var duplicate: Option<nat> := None;
      var link := (n, p.dst);
      if link in policies {
        var policy := policies[link];
        if policy.dropRemaining > 0 {
          policies := policies[link := policy.(dropRemaining := policy.dropRemaining - 1)];
          return;
        }
        if policy.delay.Some? {
          at := at + policy.delay.value;
        }
        if policy.duplicateRemaining > 0 {
          policies := policies[link := policy.(duplicateRemaining := policy.duplicateRemaining - 1)];
          duplicate := Some(at + policy.duplicateDelay);
        }
      }
      events := events + [SimEvent(at, sequence, n, p.dst, p.msg)];
      sequence := sequence + 1;
      if duplicate.Some? {
        events := events + [SimEvent(duplicate.value, sequence, n, p.dst, p.msg)];
        sequence := sequence + 1;
      }
    }

    method RouteAll(n: NodeId, packets: seq<Packet>)
      modifies this`events, this`sequence, this`policies
      ensures Wired() == RouteMany(old(Wired()), Network(), n, packets)
    {
      hide RouteOne;
      for i := 0 to |packets|
        invariant Wired() == RouteMany(old(Wired()), Network(), n, packets[..i])
      {
        assert packets[..i + 1][..i] == packets[..i];
        Route(n, packets[i]);
      }
      assert packets[..|packets|] == packets;
    }

    /** A live node's outbox goes on the wire, packet by packet; one that is off loses it, a paused one keeps it. */
    method FlushNodeOutbox(n: NodeId)
      requires Valid()
      modifies this`events, this`sequence, this`policies, nodes.Values
      ensures Valid() && Extended() && StaysClean() && old(events) <= events
      ensures n in nodes && n !in paused ==> nodes[n].outbox == []
      ensures forall k :: k in nodes && k != n ==> nodes[k].outbox == old(nodes[k].outbox)
      ensures Wired() == if n in nodes && n !in disabled && n !in paused
                         then RouteMany(old(Wired()), Network(), n, old(nodes[n].outbox)) else old(Wired())
      ensures n in nodes && n !in disabled && n !in paused ==> OnWire(old(nodes[n].Sent()), n)
    {
      hide Mirrors, Run, RouteMany, Carried, Barred;
      if n !in nodes { return; }
      if n in disabled {
        var _ := Drain(n);
        return;
      }
      if n in paused { return; }
      var packets := Drain(n);
      ghost var queued := events;
      RouteManySends(Wired(), Network(), n, packets);
      RouteAll(n, packets);
      assert events == queued + events[|queued|..];
    }

    // -------------------------------------------------------------- faults

    method DisableNode(n: NodeId)
      requires Valid()
      modifies this`disabled, nodes.Values
      ensures Valid() && Extended() && StaysClean() && disabled == old(disabled) + {n}
      ensures n in nodes ==> nodes[n].outbox == []
    {
      hide Mirrors, Run;
      disabled := disabled + {n};
      if n in nodes {
        var _ := Drain(n);
      }
    }

    method RestartNodeAt(n: NodeId)
      requires Valid()
      modifies this`disabled, this`paused, this`pausedEvents, this`trace, nodes.Values
      ensures Valid() && Extended() && StaysClean()
      ensures disabled == old(disabled) - {n} && paused == old(paused) - {n} && pausedEvents == old(pausedEvents) - {n}
      ensures if n in nodes then |trace| == |old(trace)| + 1 && StepBy(old(Last()), Reboot(n), Last())
              else trace == old(trace)
    {
      hide Mirrors, Run, StepBy;
      disabled, paused, pausedEvents := disabled - {n}, paused - {n}, pausedEvents - {n};
      if n in nodes {
        Known(n);
        Act(n, Reboot(n));
      }
    }

    lemma Known(n: NodeId)
      requires Valid() && n in nodes
      ensures n in trace[|trace| - 1].ids
    {
      hide Run;
    }

    /** The wire once `n` resumes: what waited for it is released, and then its outbox is flushed. */
    ghost function WireOnResume(n: NodeId): Wire
      reads this, nodes.Values
    {
      var released := Wire(events + Redated(Deferred(n), now), sequence, policies);
      if n in nodes && n !in disabled then RouteMany(released, Network(), n, nodes[n].outbox) else released
    }

    method ResumeNodeAt(n: NodeId)
      requires Valid()
      modifies this`paused, this`pausedEvents, this`events, this`sequence, this`policies, nodes.Values
      ensures Valid() && Extended() && StaysClean()
      ensures paused == old(paused) - {n} && pausedEvents == old(pausedEvents) - {n}
      ensures Wired() == old(WireOnResume(n))
    {
      hide Mirrors, Run, RouteMany;
      assert events + Redated([], now) == events;
      paused := paused - {n};
      if n in pausedEvents {
        Release(pausedEvents[n]);
        pausedEvents := pausedEvents - {n};
      }
      FlushNodeOutbox(n);
    }

    /** Deferred events are due now. */
    method Release(deferred: seq<SimEvent>)
      requires Valid() && Queued(deferred, Net())
      modifies this`events
      ensures Valid() && events == old(events) + Redated(deferred, now)
    {
      hide Mirrors, Run;
      for i := 0 to |deferred|
        invariant Valid() && events == old(events) + Redated(deferred[..i], now)
      {
        assert deferred[i] in deferred;
        assert Redated(deferred[..i + 1], now) == Redated(deferred[..i], now) + [deferred[i].(deliverAt := now)];
        events := events + [deferred[i].(deliverAt := now)];
      }
      assert deferred[..|deferred|] == deferred;
    }

    method StartElectionAt(n: NodeId)
      requires Valid()
      modifies this`trace, this`events, this`sequence, this`policies, nodes.Values
      ensures Valid() && Extended() && StaysClean()
      ensures if n in nodes && n !in disabled && n !in paused
              then |trace| == |old(trace)| + 1 && StepBy(old(Last()), Elect(n), Last())
                   && OnWire(SentBy(old(Last()), Elect(n)), n)
              else trace == old(trace)
      ensures old(events) <= events
    {
      hide Mirrors, Run, StepBy, SentBy, RouteMany, RaftNode.Sent, Carried, Barred;
      if n in disabled || n in paused { return; }
      if n in nodes {
        Known(n);
        Act(n, Elect(n));
      }
      FlushNodeOutbox(n);
    }

    method SubmitTo(n: NodeId, c: Command)
      requires Valid()
      modifies this`trace, this`events, this`sequence, this`policies, nodes.Values
      ensures Valid() && Extended() && (!HoldsNaN(c) ==> StaysClean())
      ensures if n in nodes then |trace| == |old(trace)| + 2
                                 && StepBy(trace[|trace| - 2], Deliver(Packet(n, ClientCommand(c))), Last())
              else trace == old(trace)
      ensures n in nodes && n !in disabled && n !in paused ==>
                OnWire(SentBy(trace[|trace| - 2], Deliver(Packet(n, ClientCommand(c)))), n)
      ensures old(events) <= events
    {
      hide Mirrors, Run, StepBy, SentBy, RouteMany, RaftNode.Sent, Carried, Barred;
      if n in nodes {
        SubmitAt(n, c);
      }
      FlushNodeOutbox(n);
    }

    function Setting(): Faults
      reads this
    {
      Faults(disabled, paused, pausedEvents, blocked)
    }

    method ApplyFault(fault: Fault)
      requires Valid()
      modifies this`trace, this`events, this`sequence, this`policies, this`disabled, this`paused, this`pausedEvents,
               this`blocked, nodes.Values
      ensures Valid() && Extended() && (CleanFault(fault) ==> StaysClean())
      ensures Setting() == SettingAfter(old(Setting()), fault, nodes.Keys)
      ensures fault.ResumeNode? ==> Wired() == old(WireOnResume(fault.node))
      ensures !Acts(fault) ==> Wired() == old(Wired()).(policies := PoliciesAfter(old(policies), fault))
      ensures FaultStep(fault, old(trace), trace, nodes.Keys, disabled + paused)
    {
      hide Mirrors, Run, StepBy, BothWays, RouteMany, SettingAfter, PoliciesAfter, WireOnResume;
      SettingOf(Setting(), fault, nodes.Keys);
      PoliciesOf(policies, fault);
      match fault {
        case CrashNode(n) => DisableNode(n);
        case RestartNode(n) => RestartNodeAt(n);
        case ResumeNode(n) => ResumeNodeAt(n);
        case TriggerElection(n) => StartElectionAt(n);
        case SubmitCommand(n, c) => SubmitTo(n, c);
        case _ => ApplySetting(fault);
      }
    }

    /** A fault of a link, or a pause. */
    method ApplySetting(fault: Fault)
      requires Valid() && !Acts(fault) && !fault.CrashNode? && !fault.RestartNode?
      modifies this`policies, this`paused, this`blocked
      ensures Valid() && Extended() && StaysClean()
      ensures Setting() == SettingAfter(old(Setting()), fault, nodes.Keys)
              && policies == PoliciesAfter(old(policies), fault)
    {
      hide Mirrors, Run, StepBy, BothWays;
      match fault {
        case PauseNode(n) => paused := paused + {n};
        case BlockLink(from, to) => blocked := blocked + {(from, to)};
        case UnblockLink(from, to) => blocked := blocked - {(from, to)};
        case Partition(a, b) => blocked := blocked + BothWays(a, b);
        case HealAllPartitions => blocked := {};
        case IsolateNode(n) => blocked := blocked + BothWays({n}, nodes.Keys - {n});
        case ReconnectNode(n) => blocked := blocked - BothWays({n}, nodes.Keys - {n});
        case DropPackets(from, to, count) =>
          var policy := PolicyIn(policies, from, to);
          policies := policies[(from, to) := policy.(dropRemaining := policy.dropRemaining + count)];
        case DelayLink(from, to, delay) =>
          policies := policies[(from, to) := PolicyIn(policies, from, to).(delay := Some(delay))];
        case ClearLinkDelay(from, to) =>
          if (from, to) in policies {
            policies := policies[(from, to) := policies[(from, to)].(delay := None)];
          }
        case DuplicatePackets(from, to, count, delay) =>
          var policy := PolicyIn(policies, from, to);
          policies := policies[(from, to) := policy.(duplicateRemaining := policy.duplicateRemaining + count,
                                                     duplicateDelay := delay)];
      }
    }

    method ScheduleFault(at: nat, fault: Fault)
      requires Valid()
      modifies this`scheduled, this`faultSequence
      ensures Valid() && scheduled == old(scheduled) + [ScheduledFault(at, old(faultSequence) + 1, fault)]
      ensures CleanFault(fault) ==> StaysClean()
    {
      hide Mirrors, Run;
      faultSequence := faultSequence + 1;
      scheduled := scheduled + [ScheduledFault(at, faultSequence, fault)];
    }

    method NextFault() returns (k: nat)
      requires |scheduled| > 0
      ensures k < |scheduled| && forall f :: f in scheduled ==> Before(scheduled[k], f)
    {
      var keys := seq(|scheduled|, i requires 0 <= i < |scheduled| reads this =>
                      (scheduled[i].triggerAt, scheduled[i].sequence));
      k := Earliest(keys);
      forall f | f in scheduled ensures Before(scheduled[k], f) {
        var j :| 0 <= j < |scheduled| && scheduled[j] == f;
        assert NotAfter(keys[k], keys[j]);
      }
    }

    /** Every fault that is due is applied, and no other, earliest first and for one time in the order of scheduling. */
    method TriggerDueFaults() returns (ghost applied: seq<ScheduledFault>, ghost stages: seq<seq<Cluster>>)
      requires Valid()
      modifies this, nodes.Values
      ensures Valid() && Extended() && StaysClean() && now == old(now)
      ensures multiset(old(scheduled)) == multiset(scheduled) + multiset(applied) && InOrder(applied)
      ensures (forall f :: f in applied ==> f.triggerAt <= now) && (forall f :: f in scheduled ==> f.triggerAt > now)
      ensures Setting() == SettingsAfter(old(Setting()), applied, nodes.Keys)
      ensures Staged(old(Setting()), applied, nodes.Keys, stages)
      ensures stages[0] == old(trace) && stages[|applied|] == trace
      ensures old(scheduled) == [] ==>
                && trace == old(trace) && events == old(events) && disabled == old(disabled) && paused == old(paused)
                && blocked == old(blocked) && scheduled == []
    {
      hide Mirrors, Run, Before, InOrder, StepBy, SettingAfter, PoliciesAfter, WireOnResume, Clean, FaultStep;
      applied, stages := [], [trace];
      NoFaultsApplied();
      if |scheduled| == 0 { return; }
      while |scheduled| > 0
        invariant Valid() && Extended() && StaysClean() && now == old(now)
        invariant multiset(old(scheduled)) == multiset(scheduled) + multiset(applied) && InOrder(applied)
        invariant forall f, g :: f in applied && g in scheduled ==> Before(f, g)
        invariant forall f :: f in applied ==> f.triggerAt <= now
        invariant Setting() == SettingsAfter(old(Setting()), applied, nodes.Keys)
        invariant Staged(old(Setting()), applied, nodes.Keys, stages)
        invariant stages[0] == old(trace) && stages[|applied|] == trace
        decreases |scheduled|
      {
        var k := NextFault();
        if scheduled[k].triggerAt > now {
          LaterToo(scheduled, scheduled[k], now);
          return;
        }
        var f := PopFault(k);
        AppliedNext(applied, f);
        ApplyFault(f.fault);
        StagedMore(old(Setting()), applied, nodes.Keys, stages, f, trace);
        applied, stages := applied + [f], stages + [trace];
      }
    }

    method PopFault(k: nat) returns (f: ScheduledFault)
      requires Valid() && k < |scheduled|
      modifies this`scheduled
      ensures Valid() && Extended() && StaysClean() && f == old(scheduled)[k]
      ensures multiset(old(scheduled)) == multiset(scheduled) + multiset{f} && |scheduled| == |old(scheduled)| - 1
      ensures (forall g :: g in scheduled ==> g in old(scheduled)) && (old(Clean()) ==> CleanFault(f.fault))
    {
      hide Mirrors, Run;
      f := scheduled[k];
      assert f in scheduled && scheduled == scheduled[..k] + [f] + scheduled[k + 1..];
      scheduled := scheduled[..k] + scheduled[k + 1..];
    }

    // -------------------------------------------------------------- running

    method AdvanceTime(millis: nat, due: set<NodeId>)
      requires Valid()
      modifies this, nodes.Values
      ensures Valid() && Extended() && StaysClean() && now == old(now) + millis
      ensures old(scheduled) == [] ==> |trace| == |old(trace)| + |Ticking(nodes.Keys, due, old(disabled), old(paused))|
    {
      hide Mirrors, Run, Ticking, TickStep, SeqSet;
      now := now + millis;
      var _, _ := TriggerDueFaults();
      ghost var order := TickAll(due);
      SeqSetCount(order);
    }

    /** Each live node whose deadline has passed sends heartbeats or stands for election, once, in some order. */
    method TickAll(due: set<NodeId>) returns (ghost order: seq<NodeId>)
      requires Valid()
      modifies this, nodes.Values
      ensures Valid() && Extended() && StaysClean() && now == old(now) && disabled == old(disabled)
              && paused == old(paused)
      ensures NoRepeats(order) && SeqSet(order) == Ticking(nodes.Keys, due, disabled, paused)
      ensures Ticked(trace, |old(trace)|, order)
    {
      hide Mirrors, Run, Ticking, Distinct, Queued, SeqSet, TickStep, NoRepeats;
      assert |trace| > 0;
      var ids := NodeIds();
      order := [];
      NoTicks(due, disabled, paused);
      assert ids[..0] == [];
      assert Ticked(trace, |trace|, order) && NoRepeats(order) by { NothingTicked(trace); }
      hide Ticked;
      for i := 0 to |ids|
        invariant Valid() && Extended() && StaysClean()
        invariant now == old(now) && disabled == old(disabled) && paused == old(paused)
        invariant NoRepeats(order) && SeqSet(order) == Ticking(SeqSet(ids[..i]), due, disabled, paused)
        invariant Ticked(trace, |old(trace)|, order)
      {
        OneMoreTick(ids, i, due, disabled, paused, order);
        ghost var before := trace;
        TickNode(ids[i], ids[i] in due);
        if ids[i] in due && ids[i] !in disabled && ids[i] !in paused {
          TickedMore(before, trace, |old(trace)|, order, ids[i]);
          order := order + [ids[i]];
        }
      }
      assert ids[..|ids|] == ids;
    }

    method NodeIds() returns (ids: seq<NodeId>)
      ensures NoRepeats(ids) && SeqSet(ids) == nodes.Keys && forall i :: 0 <= i < |ids| ==> ids[i] in nodes
    {
      ids := [];
      var rest := nodes.Keys;
      while rest != {}
        invariant NoRepeats(ids) && rest <= nodes.Keys && SeqSet(ids) == nodes.Keys - rest
        invariant forall i :: 0 <= i < |ids| ==> ids[i] in nodes && ids[i] !in rest
        decreases rest
      {
        var n :| n in rest;
        SeqSetPush(ids, n);
        rest := rest - {n};
        ids := ids + [n];
        assert nodes.Keys - rest == (nodes.Keys - rest - {n}) + {n};
      }
    }

    method TickNode(n: NodeId, due: bool)
      requires Valid() && n in nodes
      modifies this`trace, this`events, this`sequence, this`policies, nodes.Values
      ensures Valid() && Extended() && StaysClean()
      ensures if due && n !in disabled && n !in paused
              then |trace| == |old(trace)| + 1 && TickStep(old(Last()), n, Last())
                   && OnWire(SentBy(old(Last()), TickOf(old(Last()), n)), n)
              else trace == old(trace)
    {
      hide Mirrors, Run, StepBy, RouteMany, SentBy, RaftNode.Sent, Carried, Barred;
      if n !in disabled && n !in paused {
        if due {
          Known(n);
          RoleOf(n);
          Act(n, if nodes[n].role == Leader then Heartbeat(n) else Elect(n));
        }
        FlushNodeOutbox(n);
      }
    }

    lemma RoleOf(n: NodeId)
      requires Valid() && n in nodes
      ensures n in Last().nodes && Last().nodes[n].role == nodes[n].role
    {
      hide Run;
    }

    method PopEvent() returns (event: SimEvent)
      requires Valid() && |events| > 0
      modifies this`events
      ensures Valid() && Packet(event.to, event.message) in Net()
              && multiset(events) == multiset(old(events)) - multiset{event}
      ensures IsNext(old(events), event)
    {
      hide Mirrors, Run;
      var keys := seq(|events|, i requires 0 <= i < |events| reads this => (events[i].deliverAt, events[i].sequence));
      var k := Earliest(keys);
      event := events[k];
      forall e | e in events ensures NotAfter((event.deliverAt, event.sequence), (e.deliverAt, e.sequence)) {
        var j :| 0 <= j < |events| && events[j] == e;
        assert NotAfter(keys[k], keys[j]);
      }
      assert events == events[..k] + [event] + events[k + 1..];
      events := events[..k] + events[k + 1..];
    }

    /** Node `to` is up, and the link from `from` to it is open. */
    predicate Reaches(from: NodeId, to: NodeId)
      reads this
    {
      from !in disabled && to !in disabled && (from, to) !in blocked && to !in paused && to in nodes
    }

    /** Both ends are up and the link is open, but the target is paused. */
    predicate Waits(from: NodeId, to: NodeId)
      reads this
    {
      from !in disabled && to !in disabled && (from, to) !in blocked && to in paused
    }

    /** The events that wait for `n` to resume. */
    function Deferred(n: NodeId): seq<SimEvent>
      reads this
    {
      if n in pausedEvents then pausedEvents[n] else []
    }

    /** The earliest event: it comes before every other. */
    ghost predicate IsNext(es: seq<SimEvent>, e: SimEvent) {
      e in es && forall x :: x in es ==> NotAfter((e.deliverAt, e.sequence), (x.deliverAt, x.sequence))
    }

    /** `due` names the nodes whose deadline has passed, should time have to move to the next fault. */
    method DeliverNext(due: set<NodeId>) returns (progress: bool, ghost event: Option<SimEvent>)
      requires Valid()
      modifies this, nodes.Values
      ensures Valid() && Extended() && StaysClean() && now >= old(now)
      ensures !progress ==> events == [] && scheduled == []
      ensures old(scheduled) == [] && |old(events)| > 0 ==> progress && event.Some? && IsNext(old(events), event.value)
      ensures old(scheduled) == [] && event.Some? ==>
                if old(Reaches(event.value.from, event.value.to))
                then StepBy(old(Last()), Deliver(Packet(event.value.to, event.value.message)), Last())
                     && OnWire(SentBy(old(Last()), Deliver(Packet(event.value.to, event.value.message))),
                               event.value.to)
                else trace == old(trace)
    {
      hide Mirrors, Run, StepBy, SentBy, OnWire;
      event := None;
      var _, _ := TriggerDueFaults();
      if |events| == 0 {
        progress := SkipToFault(due);
        return;
      }
      var e := DeliverEarliest();
      progress, event := true, Some(e);
    }

    /** With nothing queued, time moves to the next fault, if there is one. */
    method SkipToFault(due: set<NodeId>) returns (progress: bool)
      requires Valid() && events == [] && forall f :: f in scheduled ==> f.triggerAt > now
      modifies this, nodes.Values
      ensures Valid() && Extended() && StaysClean() && now >= old(now)
      ensures progress == (old(scheduled) != []) && (!progress ==> events == [] && scheduled == [])
      ensures progress ==> exists f :: f in old(scheduled) && now == f.triggerAt
                             && forall g :: g in old(scheduled) ==> Before(f, g)
    {
      hide Mirrors, Run, Before;
      if |scheduled| == 0 {
        return false;
      }
      var k := NextFault();
      var f := scheduled[k];
      assert f in scheduled;
      AdvanceTime(f.triggerAt - now, due);
      progress := true;
    }

    /** Time moves to the earliest event, faults that are then due are applied, and the event is dispatched. */
    method DeliverEarliest() returns (event: SimEvent)
      requires Valid() && |events| > 0
      modifies this, nodes.Values
      ensures Valid() && Extended() && StaysClean() && IsNext(old(events), event)
              && now == Max(old(now), event.deliverAt)
      ensures old(scheduled) == [] ==>
                if old(Reaches(event.from, event.to))
                then StepBy(old(Last()), Deliver(Packet(event.to, event.message)), Last())
                     && OnWire(SentBy(old(Last()), Deliver(Packet(event.to, event.message))), event.to)
                else trace == old(trace)
    {
      hide Mirrors, Run, StepBy, SentBy, OnWire;
      event := PopEvent();
      now := Max(now, event.deliverAt);
      var _, _ := TriggerDueFaults();
      Dispatch(event);
    }

    /** An event reaches its node, waits for it to resume, or is lost. */
    method Dispatch(event: SimEvent)
      requires Valid() && Packet(event.to, event.message) in Net()
      modifies this`trace, this`events, this`sequence, this`policies, this`pausedEvents, nodes.Values
      ensures Valid() && Extended() && StaysClean()
      ensures if Reaches(event.from, event.to)
              then StepBy(old(Last()), Deliver(Packet(event.to, event.message)), Last())
                   && OnWire(SentBy(old(Last()), Deliver(Packet(event.to, event.message))), event.to)
              else trace == old(trace) && Wired() == old(Wired())
      ensures pausedEvents == if Waits(event.from, event.to)
                              then old(pausedEvents)[event.to := old(Deferred(event.to)) + [event]]
                              else old(pausedEvents)
    {
      hide Mirrors, Run, StepBy, SentBy, RouteMany, RaftNode.Sent, Carried, Barred;
      if event.from in disabled || event.to in disabled || (event.from, event.to) in blocked {
        return;
      }
      if event.to in paused {
        var deferred := if event.to in pausedEvents then pausedEvents[event.to] else [];
        pausedEvents := pausedEvents[event.to := deferred + [event]];
        return;
      }
      if event.to in nodes {
        Known(event.to);
        Act(event.to, Deliver(Packet(event.to, event.message)));
      }
      FlushNodeOutbox(event.to);
    }

    /** At most 10000 deliveries; the source panics when that is not enough, here `idle` is then false. */
    method RunUntilIdle(due: nat -> set<NodeId>) returns (idle: bool)
      requires Valid()
      modifies this, nodes.Values
      ensures Valid() && Extended() && StaysClean() && (idle ==> events == [] && scheduled == [])
    {
      hide Mirrors, Run;
      FlushAllOutboxes();
      for steps := 0 to 10001
        invariant Valid() && Extended() && StaysClean()
      {
        var progress, _ := DeliverNext(due(steps));
        if !progress { return true; }
      }
      idle := false;
    }

    method FlushAllOutboxes()
      requires Valid()
      modifies this`events, this`sequence, this`policies, nodes.Values
      ensures Valid() && Extended() && StaysClean() && old(events) <= events
      ensures forall n :: n in nodes && n !in paused ==> nodes[n].outbox == []
    {
      hide Mirrors, Run, RouteMany, OnWire;
      var rest := nodes.Keys;
      while rest != {}
        invariant Valid() && Extended() && StaysClean() && old(events) <= events
        invariant forall n :: n in nodes && n !in paused && n !in rest ==> nodes[n].outbox == []
        decreases rest
      {
        var n :| n in rest;
        rest := rest - {n};
        FlushNodeOutbox(n);
      }
    }

    // -------------------------------------------------------------- checking

    method ListNodes() returns (list: seq<NodeState>)
      requires Valid()
      ensures Lists(trace[|trace| - 1], list) && |list| == |nodes|
    {
      hide Run, RaftNode.View;
      list := [];
      var rest := nodes.Keys;
      while rest != {}
        invariant rest <= nodes.Keys && |list| + |rest| == |nodes|
        invariant Lists(trace[|trace| - 1], list)
        invariant forall s :: s in list ==> s.id in nodes && s.id !in rest
        decreases rest
      {
        var n :| n in rest;
        rest := rest - {n};
        assert nodes[n].View().id == n by { IdOf(nodes[n]); }
        list := list + [nodes[n].View()];
      }
    }

    /**
      The simulator's own check of its nodes: it passes if and only if no entry that two nodes have committed
      holds a NaN, so while no client writes one it never reports a violation.
    */
    method CheckNow(t: Text) returns (v: Verdict, ghost list: seq<NodeState>)
      requires Valid()
      ensures Lists(Last(), list) && |list| == |nodes|
      ensures v.Safe? <==> NoCommonNaN(list)
      ensures v.Safe? || (v.StateSafetyViolation? && HoldsNaN(v.entryA))
      ensures Clean() ==> v.Safe?
    {
      hide Run, Mirrors, Lists, NoNaNSent, NoCommonNaN, OneLeaderPerTerm, LogsMatch, CommitsAgree, HoldsNaN;
      var views := ListNodes();
      list := views;
      v := CheckInvariants(t, views);
      ghost var cs := trace;
      assert Run(cs) by { Running(); }
      ChecksPassIff(t, cs, |cs| - 1, list);
      if !v.Safe? { OnlyNaN(t, cs, |cs| - 1, list, v); }
      if NoNaNSent(Net()) { ChecksPass(t, cs, |cs| - 1, list); }
    }

    lemma Running()
      requires Valid()
      ensures Run(trace)
    {
      hide Run;
    }

    /**
      The chaos test, whatever choices its random source makes, never finds a violation but a committed NaN, and
      none at all while the writes, like the integers the source writes, hold no NaN. `settle` gives, for each
      delivery of the last phase, the nodes whose deadline has passed.
    */
    method RunChaosTest(t: Text, script: seq<ChaosStep>, settle: nat -> set<NodeId>)
      returns (v: Verdict, ghost list: seq<NodeState>)
      requires Valid()
      modifies this, nodes.Values
      ensures Valid() && Extended()
      ensures Lists(Last(), list) && |list| == |nodes| && (v.Safe? <==> NoCommonNaN(list))
      ensures v.Safe? || (v.StateSafetyViolation? && HoldsNaN(v.entryA))
      ensures old(Clean()) && (forall x :: x in script ==> CleanStep(x)) ==> v.Safe?
    {
      hide Mirrors, Run, NoNaNSent, CleanFault, HoldsNaN, Lists, NoCommonNaN;
      for i := 0 to |script|
        invariant Valid() && Extended()
        invariant (forall x :: x in script ==> CleanStep(x)) ==> StaysClean()
      {
        assert script[i] in script;
        ChaosRound(script[i]);
        v, list := CheckNow(t);
        if !v.Safe? { return; }
      }
      Converge();
      var _ := RunUntilIdle(settle);
      v, list := CheckNow(t);
    }

    /** One round: a write, a fault, and then time or a delivery. */
    method ChaosRound(x: ChaosStep)
      requires Valid()
      modifies this, nodes.Values
      ensures Valid() && Extended() && (CleanStep(x) ==> StaysClean())
    {
      hide Mirrors, Run, NoNaNSent, CleanFault, FaultStep, SettingAfter, PoliciesAfter, WireOnResume, StepBy, Ticking;
      if x.write.Some? {
        ApplyFault(x.write.value);
      }
      if x.fault.Some? {
        ApplyFault(x.fault.value);
      }
      if x.advance.Some? {
        AdvanceTime(x.advance.value, x.due);
      } else {
        var _, _ := DeliverNext(x.due);
      }
    }

    /** Heal the network and bring every node back. */
    method Converge()
      requires Valid()
      modifies this, nodes.Values
      ensures Valid() && Extended() && StaysClean()
      ensures blocked == {} && disabled * nodes.Keys == {} && paused * nodes.Keys == {}
    {
      hide Mirrors, Run, WireOnResume, StepBy;
      blocked := {};
      var rest := nodes.Keys;
      while rest != {}
        invariant Valid() && Extended() && StaysClean()
        invariant blocked == {} && disabled * nodes.Keys <= rest && paused * nodes.Keys <= rest
        decreases rest
      {
        var n :| n in rest;
        rest := rest - {n};
        if n in disabled {
          RestartNodeAt(n);
        }
        if n in paused {
          ResumeNodeAt(n);
        }
      }
      assert disabled * nodes.Keys == {} && paused * nodes.Keys == {};
    }
  }
}
