/** The simulator's invariant checks, and the proof that no run of a cluster can make them fail. */
module SimulatorChecks {
  import opened Commands
  import opened RaftTypes
  import opened RaftCluster
  import opened RaftTheorems
  import opened RaftSafety
  import opened RaftInvariants
  import opened RaftSubmitted
  import opened ByteForms
  import Wal

  datatype Verdict =
    | Safe
    | ElectionViolation(term: nat, leaders: seq<NodeId>)
    | LogMatchingViolation(a: NodeId, b: NodeId, index: nat, termA: nat, termB: nat)
    | StateSafetyViolation(index: nat, a: NodeId, b: NodeId, entryA: Command, entryB: Command)

  // ---------------------------------------------------------------- how payloads are compared

  /** A 64-bit float whose exponent is all ones and whose fraction is not zero. */
  predicate IsNaN(bits: nat) { bits / 0x10_0000_0000_0000 % 0x800 == 0x7ff && bits % 0x10_0000_0000_0000 != 0 }

  predicate IsZero(bits: nat) { bits % 0x8000_0000_0000_0000 == 0 }

  /** Floats compare as numbers: a NaN differs from everything, itself included, and the two zeros are equal. */
  predicate SameFloat(x: nat, y: nat) { !IsNaN(x) && !IsNaN(y) && (x == y || (IsZero(x) && IsZero(y))) }

  predicate SameValue(v: Value, w: Value) {
    match (v, w)
    case (Int(i), Int(j)) => i == j
    case (Float(x), Float(y)) => SameFloat(x, y)
    case (Str(a), Str(b)) => a == b
    case _ => false
  }

  /** A payload is a log record with number 0: command and checksum are compared. */
  predicate SamePayload(t: Text, c: Command, d: Command) {
    && c.key == d.key
    && ((c.Delete? && d.Delete?) || (c.Set? && d.Set? && SameValue(c.value, d.value)))
    && Wal.Checksum(t, (0, c)) == Wal.Checksum(t, (0, d))
  }

  predicate HoldsNaN(c: Command) { c.Set? && c.value.Float? && IsNaN(c.value.bits) }

  /** A payload equals itself unless it holds a NaN. */
  lemma SelfSame(t: Text, c: Command)
    ensures SamePayload(t, c, c) <==> !HoldsNaN(c)
  {
    hide Wal.Checksum;
  }

  // ---------------------------------------------------------------- what the checks are for

  predicate OneLeaderPerTerm(list: seq<NodeState>) {
    forall i, j :: 0 <= i < j < |list| && list[i].role == Leader && list[j].role == Leader ==>
      list[i].currentTerm != list[j].currentTerm
  }

  predicate TermsMatch(a: seq<LogEntry>, b: seq<LogEntry>) {
    forall idx, k :: 1 <= k <= idx < |a| && idx < |b| && a[idx].term == b[idx].term ==> a[k].term == b[k].term
  }

  predicate LogsMatch(list: seq<NodeState>) {
    forall i, j :: 0 <= i < j < |list| ==> TermsMatch(list[i].log, list[j].log)
  }

  /** Index `k` is one that both nodes have committed and hold. */
  predicate Shared(a: NodeState, b: NodeState, k: nat) {
    1 <= k <= a.commitIndex && k <= b.commitIndex && k < |a.log| && k < |b.log|
  }

  ghost predicate CommitsMatch(t: Text, a: NodeState, b: NodeState) {
    forall k: nat :: Shared(a, b, k) ==> SamePayload(t, a.log[k].command, b.log[k].command)
  }

  ghost predicate CommitsAgree(t: Text, list: seq<NodeState>) {
    forall i, j :: 0 <= i < j < |list| ==> CommitsMatch(t, list[i], list[j])
  }

  /** No entry that both have committed holds a NaN. */
  ghost predicate NoSharedNaN(a: NodeState, b: NodeState) {
    forall k: nat :: Shared(a, b, k) ==> !HoldsNaN(a.log[k].command)
  }

  ghost predicate NoCommonNaN(list: seq<NodeState>) {
    forall i, j :: 0 <= i < j < |list| ==> NoSharedNaN(list[i], list[j])
  }

  /** A verdict other than `Safe` names a violation that is really there. */
  ghost predicate Truthful(t: Text, list: seq<NodeState>, v: Verdict) {
    match v
    case Safe => true
    case ElectionViolation(term, leaders) =>
      && |leaders| > 1
      && forall n :: n in leaders ==> exists s :: s in list && s.id == n && s.role == Leader && s.currentTerm == term
    case LogMatchingViolation(a, b, k, ta, tb) =>
      && ta != tb
      && exists i, j :: 0 <= i < j < |list| && list[i].id == a && list[j].id == b
           && 1 <= k < |list[i].log| && k < |list[j].log| && list[i].log[k].term == ta && list[j].log[k].term == tb
    case StateSafetyViolation(k, a, b, ca, cb) =>
      && !SamePayload(t, ca, cb)
      && exists i, j :: 0 <= i < j < |list| && list[i].id == a && list[j].id == b && Shared(list[i], list[j], k)
           && list[i].log[k].command == ca && list[j].log[k].command == cb
  }

  // ---------------------------------------------------------------- the checks

  /** The ids of the leaders of term `t`, in list order. */
  function LeadersOf(list: seq<NodeState>, t: nat): seq<NodeId> {
    if |list| == 0 then []
    else
      var s := list[|list| - 1];
      LeadersOf(list[..|list| - 1], t) + if s.role == Leader && s.currentTerm == t then [s.id] else []
  }

  lemma {:induction false} LeadersOfMember(list: seq<NodeState>, t: nat, n: NodeId)
    ensures n in LeadersOf(list, t) <==> exists s :: s in list && s.id == n && s.role == Leader && s.currentTerm == t
  {
    if |list| > 0 {
      var s, rest := list[|list| - 1], list[..|list| - 1];
      assert list == rest + [s];
      LeadersOfMember(rest, t, n);
    }
  }

  predicate Leads(s: NodeState, t: nat) { s.role == Leader && s.currentTerm == t }

  lemma {:induction false} AtMostOne(list: seq<NodeState>, t: nat)
    requires OneLeaderPerTerm(list)
    ensures |LeadersOf(list, t)| <= 1
  {
    if |list| > 0 {
      var rest := list[..|list| - 1];
      if Leads(list[|list| - 1], t) {
        LeadersOfNone(rest, t);
      } else {
        AtMostOne(rest, t);
      }
    }
  }

  lemma {:induction false} AtLeastTwo(list: seq<NodeState>, i: nat, j: nat, t: nat)
    requires i < j < |list| && Leads(list[i], t) && Leads(list[j], t)
    ensures |LeadersOf(list, t)| >= 2
  {
    var rest := list[..|list| - 1];
    if j < |rest| {
      AtLeastTwo(rest, i, j, t);
    } else {
      LeadersOfNone(rest, t);
      assert Leads(rest[i], t);
    }
  }

  /** Two leaders of one term are two members of that term's list, and the other way round. */
  lemma LeadersCounted(list: seq<NodeState>)
    ensures OneLeaderPerTerm(list) <==> forall t :: |LeadersOf(list, t)| <= 1
  {
    hide LeadersOf;
    if OneLeaderPerTerm(list) {
      forall t ensures |LeadersOf(list, t)| <= 1 { AtMostOne(list, t); }
    } else {
      var i, j :| 0 <= i < j < |list| && list[i].role == Leader && list[j].role == Leader
                  && list[i].currentTerm == list[j].currentTerm;
      AtLeastTwo(list, i, j, list[i].currentTerm);
    }
  }

  lemma {:induction false} LeadersOfNone(list: seq<NodeState>, t: nat)
    ensures LeadersOf(list, t) == [] <==>
            forall i :: 0 <= i < |list| ==> list[i].role != Leader || list[i].currentTerm != t
  {
    if |list| > 0 {
      LeadersOfNone(list[..|list| - 1], t);
    }
  }

  lemma TooMany(list: seq<NodeState>, t: nat)
    requires |LeadersOf(list, t)| > 1
    ensures !OneLeaderPerTerm(list)
  {
    hide LeadersOf;
    if OneLeaderPerTerm(list) { AtMostOne(list, t); }
  }

  /** The leaders of each term, gathered in one sweep. */
  method GroupLeaders(list: seq<NodeState>) returns (termLeaders: map<nat, seq<NodeId>>)
    ensures forall t: nat :: LeadersOf(list, t) == if t in termLeaders then termLeaders[t] else []
  {
    termLeaders := map[];
    for i := 0 to |list|
      invariant forall t: nat :: LeadersOf(list[..i], t) == if t in termLeaders then termLeaders[t] else []
    {
      assert list[..i + 1][..i] == list[..i];
      if list[i].role == Leader {
        var t := list[i].currentTerm;
        termLeaders := termLeaders[t := (if t in termLeaders then termLeaders[t] else []) + [list[i].id]];
      }
    }
    assert list[..|list|] == list;
  }

  method CheckElections(list: seq<NodeState>) returns (v: Verdict)
    ensures v.Safe? <==> OneLeaderPerTerm(list)
    ensures v.Safe? || (v.ElectionViolation? && forall t :: Truthful(t, list, v))
  {
    var termLeaders := GroupLeaders(list);
    LeadersCounted(list);
    var rest := termLeaders;
    while rest != map[]
      invariant forall t :: t in rest ==> t in termLeaders && rest[t] == termLeaders[t]
      invariant forall t :: t in termLeaders ==> t in rest || |termLeaders[t]| <= 1
      decreases rest.Keys
    {
      var t :| t in rest;
      if |rest[t]| > 1 {
        forall n | n in rest[t]
          ensures exists s :: s in list && s.id == n && s.role == Leader && s.currentTerm == t
        {
          LeadersOfMember(list, t, n);
        }
        TooMany(list, t);
        return ElectionViolation(t, rest[t]);
      }
      rest := rest - {t};
    }
    v := Safe;
  }

  /** The first index below the common length where the terms part although some later index agrees. */
  method CompareLogs(a: NodeState, b: NodeState) returns (v: Verdict)
    ensures v.Safe? <==> TermsMatch(a.log, b.log)
    ensures !v.Safe? ==>
              && v.LogMatchingViolation? && v.a == a.id && v.b == b.id && v.termA != v.termB
              && 1 <= v.index < |a.log| && v.index < |b.log|
              && v.termA == a.log[v.index].term && v.termB == b.log[v.index].term
  {
    var common := Min(|a.log|, |b.log|);
    for idx := 1 to Max(common, 1)
      invariant forall i, k :: 1 <= k <= i < idx && i < common && a.log[i].term == b.log[i].term ==>
                  a.log[k].term == b.log[k].term
    {
      if a.log[idx].term == b.log[idx].term {
        for k := 1 to idx + 1
          invariant forall m :: 1 <= m < k ==> a.log[m].term == b.log[m].term
        {
          if a.log[k].term != b.log[k].term {
            return LogMatchingViolation(a.id, b.id, k, a.log[k].term, b.log[k].term);
          }
        }
      }
    }
    v := Safe;
  }

  method CheckLogs(list: seq<NodeState>) returns (v: Verdict)
    ensures v.Safe? <==> LogsMatch(list)
    ensures v.Safe? || (v.LogMatchingViolation? && forall t :: Truthful(t, list, v))
  {
    hide TermsMatch;
    for i := 0 to |list|
      invariant forall x, y :: 0 <= x < i && x < y < |list| ==> TermsMatch(list[x].log, list[y].log)
    {
      for j := i + 1 to |list|
        invariant forall x, y :: 0 <= x < i && x < y < |list| ==> TermsMatch(list[x].log, list[y].log)
        invariant forall y :: i < y < j ==> TermsMatch(list[i].log, list[y].log)
      {
        v := CompareLogs(list[i], list[j]);
        if !v.Safe? {
          return;
        }
      }
    }
    v := Safe;
  }

  method CompareCommits(t: Text, a: NodeState, b: NodeState) returns (v: Verdict)
    ensures v.Safe? <==> CommitsMatch(t, a, b)
    ensures !v.Safe? ==>
              && v.StateSafetyViolation? && v.a == a.id && v.b == b.id && !SamePayload(t, v.entryA, v.entryB)
              && Shared(a, b, v.index) && v.entryA == a.log[v.index].command && v.entryB == b.log[v.index].command
  {
    hide SamePayload;
    for k := 1 to Min(a.commitIndex, b.commitIndex) + 1
      invariant forall m: nat :: m < k && Shared(a, b, m) ==> SamePayload(t, a.log[m].command, b.log[m].command)
    {
      if k >= |a.log| || k >= |b.log| {
        continue;
      }
      if !SamePayload(t, a.log[k].command, b.log[k].command) {
        return StateSafetyViolation(k, a.id, b.id, a.log[k].command, b.log[k].command);
      }
    }
    v := Safe;
  }

  method CheckCommits(t: Text, list: seq<NodeState>) returns (v: Verdict)
    ensures v.Safe? <==> CommitsAgree(t, list)
    ensures v.Safe? || (v.StateSafetyViolation? && Truthful(t, list, v))
  {
    hide CommitsMatch, SamePayload, Shared;
    for i := 0 to |list|
      invariant forall x, y :: 0 <= x < i && x < y < |list| ==> CommitsMatch(t, list[x], list[y])
    {
      for j := i + 1 to |list|
        invariant forall x, y :: 0 <= x < i && x < y < |list| ==> CommitsMatch(t, list[x], list[y])
        invariant forall y :: i < y < j ==> CommitsMatch(t, list[i], list[y])
      {
        v := CompareCommits(t, list[i], list[j]);
        if !v.Safe? {
          return;
        }
      }
    }
    v := Safe;
  }

  /** All three checks, in the source's order. */
  method CheckInvariants(t: Text, list: seq<NodeState>) returns (v: Verdict)
    ensures v.Safe? <==> OneLeaderPerTerm(list) && LogsMatch(list) && CommitsAgree(t, list)
    ensures v.StateSafetyViolation? || v.Safe? || !OneLeaderPerTerm(list) || !LogsMatch(list)
    ensures Truthful(t, list, v)
  {
    hide OneLeaderPerTerm, LogsMatch, CommitsAgree, Truthful;
    v := CheckElections(list);
    if !v.Safe? { return; }
    v := CheckLogs(list);
    if !v.Safe? { return; }
    v := CheckCommits(t, list);
    TruthfulSafe(t, list);
  }

  lemma TruthfulSafe(t: Text, list: seq<NodeState>)
    ensures Truthful(t, list, Safe)
  {}

  // ---------------------------------------------------------------- when they pass

  /** `list` shows each node of the cluster once. */
  ghost predicate Lists(c: Cluster, list: seq<NodeState>) {
    && (forall i :: 0 <= i < |list| ==> list[i].id in c.nodes && c.nodes[list[i].id] == list[i])
    && forall i, j :: 0 <= i < j < |list| ==> list[i].id != list[j].id
  }

  lemma PairSafe(t: Text, cs: seq<Cluster>, i: nat, a: NodeState, b: NodeState)
    requires Run(cs) && i < |cs| && a.id != b.id
    requires a.id in cs[i].nodes && cs[i].nodes[a.id] == a && b.id in cs[i].nodes && cs[i].nodes[b.id] == b
    ensures a.role == Leader && b.role == Leader ==> a.currentTerm != b.currentTerm
    ensures TermsMatch(a.log, b.log) && (forall k: nat :: Shared(a, b, k) ==> a.log[k] == b.log[k])
    ensures CommitsMatch(t, a, b) <==> NoSharedNaN(a, b)
  {
    hide Run, SamePayload, HoldsNaN;
    if a.role == Leader && b.role == Leader && a.currentTerm == b.currentTerm {
      ElectionSafety(cs, i, i, a.id, b.id);
    }
    forall x, k | 1 <= k <= x < |a.log| && x < |b.log| && a.log[x].term == b.log[x].term
      ensures a.log[k].term == b.log[k].term
    {
      LogMatching(cs, i, i, a.id, b.id, x);
      assert a.log[k] == a.log[..x + 1][k] == b.log[..x + 1][k] == b.log[k];
    }
    forall k: nat | Shared(a, b, k)
      ensures a.log[k] == b.log[k]
      ensures SamePayload(t, a.log[k].command, b.log[k].command) <==> !HoldsNaN(a.log[k].command)
    {
      StateMachineSafety(cs, i, i, a.id, b.id, k);
      assert a.log[k] == a.log[..k + 1][k] == b.log[..k + 1][k] == b.log[k];
      SelfSame(t, a.log[k].command);
    }
  }

  /**
    In every state of every run the first two checks pass, and the third passes if and only if no entry that
    two nodes have committed holds a NaN: committed entries are always the same, but a NaN differs from itself.
  */
  lemma ChecksPassIff(t: Text, cs: seq<Cluster>, i: nat, list: seq<NodeState>)
    requires Run(cs) && i < |cs| && Lists(cs[i], list)
    ensures OneLeaderPerTerm(list) && LogsMatch(list) && (CommitsAgree(t, list) <==> NoCommonNaN(list))
  {
    hide Run, TermsMatch, CommitsMatch, NoSharedNaN, Shared;
    forall x, y | 0 <= x < y < |list|
      ensures list[x].role == Leader && list[y].role == Leader ==> list[x].currentTerm != list[y].currentTerm
      ensures TermsMatch(list[x].log, list[y].log)
      ensures CommitsMatch(t, list[x], list[y]) <==> NoSharedNaN(list[x], list[y])
    {
      PairSafe(t, cs, i, list[x], list[y]);
    }
  }

  /** No client has written a NaN. */
  predicate NoNaNSent(net: set<Packet>) { forall p :: p in net && IsWrite(p) ==> !HoldsNaN(p.msg.command) }

  /** While no client has written a NaN, all three checks pass. */
  lemma ChecksPass(t: Text, cs: seq<Cluster>, i: nat, list: seq<NodeState>)
    requires Run(cs) && i < |cs| && Lists(cs[i], list) && NoNaNSent(cs[i].net)
    ensures OneLeaderPerTerm(list) && LogsMatch(list) && CommitsAgree(t, list)
  {
    hide Run, HoldsNaN, OneLeaderPerTerm, LogsMatch, CommitsAgree;
    ChecksPassIff(t, cs, i, list);
    forall x, y, k: nat | 0 <= x < y < |list| && Shared(list[x], list[y], k) ensures !HoldsNaN(list[x].log[k].command) {
      EntriesAreSubmitted(cs, i, list[x].id, k);
    }
  }
}
