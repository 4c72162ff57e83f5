/** The engine refines one plain map: no flush or compaction changes any read. */
module StoreReads {
  import opened Commands
  import opened Sequences
  import opened Tables
  import opened KWayMerge
  import opened Store

  /** What holds in every state of every run, whatever the configuration. */
  ghost predicate Wf(s: Store) {
    && |s.levels| == s.config.levels
    && (forall i :: 0 <= i < |s.levels| ==> AllSorted(s.levels[i]))
    && (forall i :: 1 <= i < |s.levels| ==> |s.levels[i]| <= 1)
    && s.data == ReplayWal(s.wal)
  }

  // ---------------------------------------------------------------- the search order

  lemma {:induction false} OrderConcat(a: seq<seq<Table>>, b: seq<seq<Table>>)
    ensures Order(a + b) == Order(a) + Order(b)
  {
    if |a| == 0 {
      assert a + b == b;
    } else {
      assert (a + b)[1..] == a[1..] + b;
      OrderConcat(a[1..], b);
    }
  }

  lemma ReverseConcat(a: seq<Table>, b: seq<Table>)
    ensures Reverse(a + b) == Reverse(b) + Reverse(a)
  {}

  lemma SplitTwo<T>(s: seq<T>, i: nat)
    requires i + 1 < |s|
    ensures s == s[..i] + ([s[i], s[i + 1]] + s[i + 2..])
  {}

  lemma OrderTwo(x: seq<Table>, y: seq<Table>)
    ensures Order([x, y]) == Reverse(x) + Reverse(y)
  {
    hide Reverse;
    assert [x, y][1..] == [y] && [y][1..] == [];
    assert Order([y]) == Reverse(y) + [];
  }

  lemma OrderAround(levels: seq<seq<Table>>, i: nat)
    requires i + 1 < |levels|
    ensures Order(levels) == Order(levels[..i]) + (Reverse(levels[i]) + Reverse(levels[i + 1])) + Order(levels[i + 2..])
  {
    hide Reverse, Order;
    var pre, two, post := levels[..i], [levels[i], levels[i + 1]], levels[i + 2..];
    SplitTwo(levels, i);
    OrderConcat(pre, two + post);
    OrderConcat(two, post);
    OrderTwo(levels[i], levels[i + 1]);
    Assoc(Order(pre), Order(two), Order(post));
  }

  /** The order after a publish: only the merged tables' stretch changes. */
  lemma PublishOrder(levels: seq<seq<Table>>, i: nat, cur: seq<Table>, extra: seq<Table>, next: seq<Table>, t: Table)
    requires i + 1 < |levels| && levels[i] == cur + extra && levels[i + 1] == next
    ensures var front, back := Order(levels[..i]) + Reverse(extra), Order(levels[i + 2..]);
            && Order(levels) == front + Ranked(cur + next, |cur|) + back
            && Order(Publish(levels, i, |cur|, |next|, t)) == front + [t] + back
  {
    hide Order, Ranked, Reverse;
    var after := Publish(levels, i, |cur|, |next|, t);
    OrderAround(levels, i);
    OrderAround(after, i);
    ReverseConcat(cur, extra);
    RankedParts(cur, next);
    PublishParts(levels, i, cur, extra, next, t);
    var pre := Order(levels[..i]);
    Assoc(Reverse(extra), Reverse(cur), Reverse(next));
    Assoc(pre, Reverse(extra), Reverse(cur) + Reverse(next));
    Assoc(pre, Reverse(extra), [t]);
  }

  lemma RankedParts(cur: seq<Table>, next: seq<Table>)
    ensures Ranked(cur + next, |cur|) == Reverse(cur) + Reverse(next)
  {
    assert (cur + next)[..|cur|] == cur && (cur + next)[|cur|..] == next;
  }

  lemma PublishParts(levels: seq<seq<Table>>, i: nat, cur: seq<Table>, extra: seq<Table>, next: seq<Table>, t: Table)
    requires i + 1 < |levels| && levels[i] == cur + extra && levels[i + 1] == next
    ensures var after := Publish(levels, i, |cur|, |next|, t);
            && |after| == |levels| && after[..i] == levels[..i] && after[i + 2..] == levels[i + 2..]
            && after[i] == extra && after[i + 1] == [t] && Reverse([t]) == [t]
  {}

  /**
    Compaction tolerates concurrent flushes: whatever tables `extra` were appended to the level between
    the snapshot and the publish step, every search finds what it found before.
  */
  lemma PublishKeepsSearch(levels: seq<seq<Table>>, i: nat, cur: seq<Table>, extra: seq<Table>, next: seq<Table>,
                           id: nat, k: Key)
    requires i + 1 < |levels| && levels[i] == cur + extra && levels[i + 1] == next
    requires AllSorted(cur) && AllSorted(next)
    ensures Search(Order(Publish(levels, i, |cur|, |next|, Merged(cur, next, id))), k) == Search(Order(levels), k)
  {
    hide Order, MergeAll, Publish, Find;
    var t, inputs := Merged(cur, next, id), Ranked(cur + next, |cur|);
    PublishOrder(levels, i, cur, extra, next, t);
    var front, back := Order(levels[..i]) + Reverse(extra), Order(levels[i + 2..]);
    RankedSorted(cur + next, |cur|);
    MergeAllCorrect(inputs, k);
    SearchOne(t, k);
    SearchThree(front, inputs, back, k);
    SearchThree(front, [t], back, k);
  }

  lemma SearchThree(a: seq<Table>, b: seq<Table>, c: seq<Table>, k: Key)
    ensures Search(a + b + c, k) ==
            if Search(a, k).Some? then Search(a, k) else if Search(b, k).Some? then Search(b, k) else Search(c, k)
  {
    SearchConcat(a + b, c, k);
    SearchConcat(a, b, k);
  }

  lemma SearchOne(t: Table, k: Key)
    ensures Search([t], k) == Find(t.records, k)
  {
    assert [t][1..] == [];
    assert Search([t][1..], k) == None;
  }

  // ---------------------------------------------------------------- each operation

  lemma LogReads(s: Store, c: Command, k: Key)
    requires Wf(s)
    ensures Wf(Log(s, c))
    ensures Latest(Log(s, c), k) == if k == c.key then Some(EntryOf(c)) else Latest(s, k)
  {
    hide Search, Order, AllSorted;
    assert (s.wal + [c])[..|s.wal|] == s.wal;
  }

  lemma FlushReads(s: Store, k: Key)
    requires Wf(s)
    ensures Wf(Flush(s)) && Latest(Flush(s), k) == Latest(s, k)
  {
    hide Search, Sorted, Find, Reverse;
    if s.data != map[] && |s.levels| > 0 {
      var t, s' := Table(s.nextId, Listing(s.data)), Flush(s);
      assert s'.levels[1..] == s.levels[1..];
      FlushedOrder(s.levels[0], t, Order(s.levels[1..]));
      SearchConcat([t], Order(s.levels), k);
      SearchOne(t, k);
      assert Find(t.records, k) == Lookup(s.data, k);
    }
  }

  lemma FlushedOrder(level: seq<Table>, t: Table, rest: seq<Table>)
    ensures Reverse(level + [t]) + rest == [t] + (Reverse(level) + rest)
  {
    ReverseConcat(level, [t]);
    assert Reverse([t]) == [t];
  }

  lemma CompactReads(s: Store, i: nat, kept: set<nat>, k: Key)
    requires Wf(s)
    ensures var s' := CompactLevel(s, i, kept);
            Wf(s') && Latest(s', k) == Latest(s, k) && |s'.levels| == |s.levels|
  {
    hide Search, Sorted, Order, MergeAll, ReplayWal, Ranked;
    if i + 1 < |s.levels| && s.levels[i] != [] {
      var cur, next := s.levels[i], s.levels[i + 1];
      assert cur + [] == cur;
      PublishKeepsSearch(s.levels, i, cur, [], next, s.nextId, k);
      RankedSorted(cur + next, |cur|);
      MergeAllCorrect(Ranked(cur + next, |cur|), k);
    }
  }

  lemma {:induction false} PassReads(s: Store, flags: seq<bool>, n: nat, kept: set<nat>, k: Key)
    requires Wf(s) && n <= |flags|
    ensures var s' := Pass(s, flags, n, kept);
            Wf(s') && Latest(s', k) == Latest(s, k) && |s'.levels| == |s.levels| && s'.config == s.config
            && s'.data == s.data && s'.wal == s.wal
  {
    hide Wf, Latest, MergeAll;
    if n > 0 {
      PassReads(s, flags, n - 1, kept, k);
      CompactReads(Pass(s, flags, n - 1, kept), n - 1, kept, k);
    }
  }

  /** A write changes what its own key reads and nothing else, through its flush and any part of its compaction pass. */
  lemma WriteReads(s: Store, c: Command, n: nat, kept: set<nat>, k: Key)
    requires Wf(s)
    ensures Wf(Write(s, c)) && Wf(CutShort(s, c, n, kept))
    ensures var e := if k == c.key then Some(EntryOf(c)) else Latest(s, k);
            Latest(Write(s, c), k) == e && Latest(CutShort(s, c, n, kept), k) == e
  {
    hide Wf, Latest, Flags, Pass, Flush;
    LogReads(s, c, k);
    FlushReads(Log(s, c), k);
    var s' := MaybeFlush(Log(s, c));
    PassReads(s', Flags(s'), |Flags(s')|, {}, k);
    PassReads(s', Flags(s'), if n <= |Flags(s')| then n else |Flags(s')|, kept, k);
  }

  lemma EmptyReads(config: Config, k: Key)
    ensures Wf(Empty(config)) && Latest(Empty(config), k) == None
  {
    NoTables(config.levels);
  }

  lemma {:induction false} NoTables(n: nat)
    ensures Order(seq(n, _ => [])) == []
  {
    if n > 0 {
      var levels: seq<seq<Table>> := seq(n, _ => []);
      var rest: seq<seq<Table>> := seq(n - 1, _ => []);
      assert levels[1..] == rest;
      NoTables(n - 1);
    }
  }
}
