/** Extending a run by one more event. */
module RaftRuns {
  import opened Commands
  import opened RaftTypes
  import opened RaftHandlers
  import opened RaftCluster
  import opened RaftTheorems

  lemma {:induction false} RunExtends(cs: seq<Cluster>, e: Event, c': Cluster)
    requires Run(cs) && StepBy(cs[|cs| - 1], e, c')
    ensures Run(cs + [c'])
  {
    hide Init, StepBy;
    assert Step(cs[|cs| - 1], c');
    var ds := cs + [c'];
    forall i | 0 <= i < |ds| - 1 ensures Step(ds[i], ds[i + 1]) {
      if i < |cs| - 1 {
        assert Step(cs[i], cs[i + 1]);
      }
    }
  }

  /** An enabled event extends the run, and what it does is the node's transition. */
  lemma Extend(cs: seq<Cluster>, e: Event, s: NodeState) returns (c': Cluster)
    requires Run(cs) && !e.Submit? && Enabled(cs[|cs| - 1], e)
    requires Target(e) in cs[|cs| - 1].nodes && s == cs[|cs| - 1].nodes[Target(e)]
    ensures NoPanic(s, e) && Run(cs + [c']) && StepBy(cs[|cs| - 1], e, c')
    ensures var x, c := Transition(s, e), cs[|cs| - 1];
            c'.ids == c.ids && c'.nodes == c.nodes[Target(e) := x.state] && c'.net == c.net + x.sent
  {
    hide Run, Transition, NoPanic, Record;
    LastOfRun(cs);
    NothingPanics(cs, |cs| - 1, e);
    c' := Next(cs[|cs| - 1], e);
    RunExtends(cs, e, c');
  }

  lemma LastOfRun(cs: seq<Cluster>)
    requires Run(cs)
    ensures |cs| > 0
  {}

  lemma ExtendSubmit(cs: seq<Cluster>, p: Packet) returns (c': Cluster)
    requires Run(cs) && IsClientMessage(p.msg)
    ensures Run(cs + [c']) && c' == cs[|cs| - 1].(net := cs[|cs| - 1].net + {p})
  {
    hide Run;
    LastOfRun(cs);
    c' := Next(cs[|cs| - 1], Submit(p));
    RunExtends(cs, Submit(p), c');
  }
}
