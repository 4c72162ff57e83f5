/**
  Outside the safe configurations reopening can lose an acknowledged write.

  With a table threshold of one and four levels or more, one pass decides on all levels at once, moves the
  newest table from level 0 to level 1, and then the oldest from level 2 to level 3, which gets the larger
  id. Such a run exists for every such configuration, so the safe configurations are exactly those in which
  reopening never changes a read.
*/
module EngineCounterexample {
  import opened Commands
  import opened Tables
  import opened KWayMerge
  import opened Store
  import opened StoreReads
  import opened StoreDisk
  import opened StorePass
  import opened Engine

  // ---------------------------------------------------------------- keys, one per number

  /** The i-th key: i zero bytes. */
  function KeyOf(i: nat): Key { seq(i, _ => 0) }

  /** The first `n` keys, all with the same value. */
  function Batch(n: nat, v: Value): map<Key, Entry> {
    if n == 0 then map[] else Batch(n - 1, v)[KeyOf(n - 1) := Put(v)]
  }

  lemma {:induction false} BatchHas(n: nat, v: Value, k: Key)
    ensures k in Batch(n, v) <==> exists i: nat :: i < n && k == KeyOf(i)
    ensures k in Batch(n, v) ==> Batch(n, v)[k] == Put(v)
  {
    if n > 0 { BatchHas(n - 1, v, k); }
  }

  lemma {:induction false} BatchSize(n: nat, v: Value)
    ensures |Batch(n, v)| == n && KeyOf(n) !in Batch(n, v)
  {
    BatchHas(n, v, KeyOf(n));
    assert forall i: nat :: i < n ==> |KeyOf(i)| == i;
    if n > 0 {
      BatchSize(n - 1, v);
      var m := Batch(n - 1, v);
      assert m[KeyOf(n - 1) := Put(v)].Keys == m.Keys + {KeyOf(n - 1)};
      assert |m.Keys| == |m|;
      assert |m[KeyOf(n - 1) := Put(v)].Keys| == |m[KeyOf(n - 1) := Put(v)]|;
    }
  }

  // ---------------------------------------------------------------- runs from a state

  ghost function RunFrom(s: Store, ops: seq<Op>): Store {
    if |ops| == 0 then s else Step(RunFrom(s, ops[..|ops| - 1]), ops[|ops| - 1])
  }

  lemma {:induction false} RunFromConcat(s: Store, a: seq<Op>, b: seq<Op>)
    ensures RunFrom(s, a + b) == RunFrom(RunFrom(s, a), b)
  {
    hide Step;
    if |b| == 0 {
      assert a + b == a;
    } else {
      assert (a + b)[..|a + b| - 1] == a + b[..|b| - 1];
      RunFromConcat(s, a, b[..|b| - 1]);
    }
  }

  lemma RunFromOne(s: Store, op: Op)
    ensures RunFrom(s, [op]) == Step(s, op)
  {
    hide Step;
    assert [op][..0] == [];
    assert RunFrom(s, []) == s;
  }

  lemma {:induction false} RunFromEmpty(config: Config, ops: seq<Op>)
    ensures RunFrom(Empty(config), ops) == After(config, ops)
  {
    hide Step, Empty;
    if |ops| > 0 { RunFromEmpty(config, ops[..|ops| - 1]); }
  }

  // ---------------------------------------------------------------- filling the memtable

  /** Writes of the keys from `lo` up to, not including, `hi`, whose compaction passes do nothing. */
  function Fill(lo: nat, hi: nat, v: Value): seq<Op>
    requires lo <= hi
    decreases hi
  {
    if lo == hi then [] else Fill(lo, hi - 1, v) + [Interrupted(Set(KeyOf(hi - 1), v), 0, {})]
  }

  /** The commands of a fill. */
  function FillWal(lo: nat, hi: nat, v: Value): seq<Command>
    requires lo <= hi
    decreases hi
  {
    if lo == hi then [] else FillWal(lo, hi - 1, v) + [Set(KeyOf(hi - 1), v)]
  }

  lemma NoPass(s: Store, c: Command)
    ensures CutShort(s, c, 0, {}) == MaybeFlush(Log(s, c))
  {
    hide Flush, Flags;
  }

  lemma {:induction false} Filled(s: Store, lo: nat, hi: nat, v: Value)
    requires lo <= hi && s.data == Batch(lo, v) && (hi == lo || hi < s.config.dataThreshold)
    ensures RunFrom(s, Fill(lo, hi, v)) == s.(data := Batch(hi, v), wal := s.wal + FillWal(lo, hi, v))
    decreases hi
  {
    hide Step;
    if lo < hi {
      var c := Set(KeyOf(hi - 1), v);
      var s1 := s.(data := Batch(hi - 1, v), wal := s.wal + FillWal(lo, hi - 1, v));
      Filled(s, lo, hi - 1, v);
      RunFromConcat(s, Fill(lo, hi - 1, v), [Interrupted(c, 0, {})]);
      RunFromOne(s1, Interrupted(c, 0, {}));
      QuietStep(s1, c, hi, v);
      assert s.wal + FillWal(lo, hi, v) == s1.wal + [c];
    } else {
      assert s.wal + [] == s.wal;
    }
  }

  lemma QuietStep(s: Store, c: Command, n: nat, v: Value)
    requires 0 < n < s.config.dataThreshold && s.data == Batch(n - 1, v) && c == Set(KeyOf(n - 1), v)
    ensures Step(s, Interrupted(c, 0, {})) == s.(data := Batch(n, v), wal := s.wal + [c])
  {
    NoPass(s, c);
    BatchSize(n, v);
    hide Flush, CutShort, Batch;
    assert Log(s, c).data == Batch(n, v) by { BatchNext(n, v); }
  }

  lemma BatchNext(n: nat, v: Value)
    requires n > 0
    ensures Batch(n, v) == Batch(n - 1, v)[KeyOf(n - 1) := Put(v)]
  {}

  /** The write that fills the memtable: the batch becomes the newest table of level 0. */
  lemma Flushed(s: Store, n: nat, v: Value)
    requires n > 0 && |s.levels| > 0 && s.data == Batch(n - 1, v) && n >= s.config.dataThreshold
    ensures var t := Table(s.nextId, Listing(Batch(n, v)));
            MaybeFlush(Log(s, Set(KeyOf(n - 1), v))) ==
            Store(s.config, map[], [], s.levels[0 := s.levels[0] + [t]], s.nextId + 1, s.files[t.id := t.records])
  {
    BatchSize(n, v);
    BatchNext(n, v);
    hide Batch, Listing;
    assert Log(s, Set(KeyOf(n - 1), v)).data == Batch(n, v);
    var none: map<Key, Entry> := map[];
    assert |none| == 0 && Batch(n, v) != none;
  }

  // ---------------------------------------------------------------- tables moving down

  /** Moving one table to an empty level copies it under a new id. */
  lemma MoveOne(s: Store, i: nat, t: Table)
    requires i + 1 < |s.levels| && s.levels[i] == [t] && s.levels[i + 1] == []
    ensures CompactLevel(s, i, {}) ==
            s.(levels := s.levels[i := []][i + 1 := [Table(s.nextId, t.records)]], nextId := s.nextId + 1,
               files := s.files[s.nextId := t.records] - {t.id})
  {
    assert [t] + [] == [t];
    var ranked := Ranked([t], 1);
    assert ranked[Rank(0, 1, 1)] == t;
    assert ranked == [t] && ranked[1..] == [];
    assert MergeAll(ranked) == MergeTwo(t.records, MergeAll([]));
    assert MergeTwo(t.records, []) == t.records;
    hide MergeAll;
    assert Ids([t]) == {t.id};
    assert [t][1..] == [] && [] + [Table(s.nextId, t.records)] == [Table(s.nextId, t.records)];
  }

  /** Merging a table into one with the same records, too. */
  lemma MoveSame(s: Store, i: nat, t: Table, u: Table)
    requires i + 1 < |s.levels| && s.levels[i] == [t] && s.levels[i + 1] == [u] && t.records == u.records
             && Sorted(t.records)
    ensures CompactLevel(s, i, {}) ==
            s.(levels := s.levels[i := []][i + 1 := [Table(s.nextId, t.records)]], nextId := s.nextId + 1,
               files := s.files[s.nextId := t.records] - {t.id, u.id})
  {
    var both := [t] + [u];
    MergeSame(t, u);
    hide MergeAll, Ranked, Sorted;
    assert Ids(both) == {t.id, u.id};
    assert [t][1..] == [] && [u][1..] == [] && [] + [Table(s.nextId, t.records)] == [Table(s.nextId, t.records)];
  }

  lemma MergeSame(t: Table, u: Table)
    requires t.records == u.records && Sorted(t.records)
    ensures MergeAll(Ranked([t] + [u], 1)) == t.records
  {
    var order := Ranked([t] + [u], 1);
    assert order[Rank(0, 1, 2)] == t && order[Rank(1, 1, 2)] == u;
    assert order == [t, u];
    MergeAllCorrect(order, []);
    forall k ensures Find(MergeAll(order), k) == Find(t.records, k) {
      MergeAllCorrect(order, k);
      assert order[1..] == [u];
      SearchOne(u, k);
    }
    hide MergeAll, Sorted, Find;
    SameAnswers(MergeAll(order), t.records);
  }

  /** A pass in which only level `i` is full. */
  lemma {:induction false} PassOnly(s: Store, flags: seq<bool>, i: nat, n: nat)
    requires n <= |flags| && i < |flags| && forall m :: 0 <= m < |flags| ==> (flags[m] <==> m == i)
    ensures Pass(s, flags, n, {}) == if n <= i then s else CompactLevel(s, i, {})
  {
    hide CompactLevel;
    if n > 0 { PassOnly(s, flags, i, n - 1); }
  }

  /** A pass in which exactly levels `i` and `j` are full. */
  lemma {:induction false} PassTwo(s: Store, flags: seq<bool>, i: nat, j: nat, n: nat)
    requires n <= |flags| && i < j < |flags| && forall m :: 0 <= m < |flags| ==> (flags[m] <==> m == i || m == j)
    ensures Pass(s, flags, n, {}) ==
            if n <= i then s else if n <= j then CompactLevel(s, i, {}) else CompactLevel(CompactLevel(s, i, {}), j, {})
  {
    hide CompactLevel;
    if n > 0 { PassTwo(s, flags, i, j, n - 1); }
  }

  /** All levels empty but those where tables are put. */
  function Bare(n: nat): seq<seq<Table>> { seq(n, _ => []) }

  predicate Unsafe(c: Config) { c.tableThreshold == 1 && c.levels >= 4 }

  lemma MoveDown(s: Store, i: nat, t: Table)
    requires Unsafe(s.config) && i + 1 < s.config.levels && s.levels == Bare(s.config.levels)[i := [t]]
    ensures MaybeCompact(s) ==
            s.(levels := Bare(s.config.levels)[i + 1 := [Table(s.nextId, t.records)]], nextId := s.nextId + 1,
               files := s.files[s.nextId := t.records] - {t.id})
  {
    FlagsAre(s);
    hide Flags, CompactLevel, Pass;
    PassOnly(s, Flags(s), i, |Flags(s)|);
    MoveOne(s, i, t);
    OneMoved(s.config.levels, i, t, Table(s.nextId, t.records));
  }

  // ---------------------------------------------------------------- the bad state

  function OldTable(n: nat): map<Key, Entry> { Batch(n, Int(1)) }

  function NewTable(n: nat): map<Key, Entry> { Batch(n, Int(2)) }

  /** The old records lie in level 2 and the memtable lacks one key of the new batch. */
  ghost predicate Ready(s: Store, c: Config, n: nat, id: nat) {
    && c.levels >= 4 && s.config == c && n > 0 && n >= c.dataThreshold && s.data == Batch(n - 1, Int(2))
    && id < s.nextId
    && s.levels == Bare(c.levels)[2 := [Table(id, Listing(OldTable(n)))]] && s.files == map[id := Listing(OldTable(n))]
  }

  /** The newer table stands in level 1, the older one, with the larger id, in level 3. */
  lemma Disordered(s: Store, c: Config, n: nat, id: nat) returns (s': Store)
    requires Unsafe(c) && Ready(s, c, n, id)
    ensures s' == Write(s, Set(KeyOf(n - 1), Int(2)))
    ensures s'.data == map[] && s'.wal == []
    ensures s'.files == map[s.nextId + 1 := Listing(NewTable(n)), s.nextId + 2 := Listing(OldTable(n))]
  {
    hide Listing, Batch, MaybeFlush, Log, MaybeCompact;
    var older, newer := Table(id, Listing(OldTable(n))), Table(s.nextId, Listing(NewTable(n)));
    var f := MaybeFlush(Log(s, Set(KeyOf(n - 1), Int(2))));
    Flushed(s, n, Int(2));
    assert s.levels[0] + [newer] == [newer];
    TwoMoves(f, newer, older);
    s' := MaybeCompact(f);
  }

  /** A pass over exactly two tables, in levels 0 and `j`. */
  lemma PassOfTwo(f: Store, j: nat, t: Table, u: Table)
    requires Unsafe(f.config) && 0 < j < f.config.levels - 1 && f.levels == Bare(f.config.levels)[j := [u]][0 := [t]]
    ensures MaybeCompact(f) == CompactLevel(CompactLevel(f, 0, {}), j, {})
  {
    FlagsAre(f);
    hide Flags, CompactLevel, Pass;
    PassTwo(f, Flags(f), 0, j, |Flags(f)|);
  }

  lemma TwoMoves(f: Store, t: Table, u: Table)
    requires Unsafe(f.config) && f.levels == Bare(f.config.levels)[2 := [u]][0 := [t]] && t.id < f.nextId
             && u.id < f.nextId
    requires t.id != u.id && f.files == map[u.id := u.records, t.id := t.records]
    ensures var b := MaybeCompact(f);
            && b.data == f.data && b.wal == f.wal
            && b.files == map[f.nextId := t.records, f.nextId + 1 := u.records]
  {
    hide CompactLevel, MaybeCompact;
    PassOfTwo(f, 2, t, u);
    MoveOne(f, 0, t);
    var a := CompactLevel(f, 0, {});
    assert a.levels[2] == [u] && a.levels[3] == [];
    TwoFiles(f.files, f.nextId, t.id, u.id, t.records, u.records);
    MoveOne(a, 2, u);
  }

  lemma TwoFiles(files: map<nat, seq<Record>>, next: nat, t: nat, u: nat, ts: seq<Record>, us: seq<Record>)
    requires t != u && t < next && u < next && files == map[u := us, t := ts]
    ensures (files[next := ts] - {t})[next + 1 := us] - {u} == map[next := ts, next + 1 := us]
  {}

  lemma TwoIds(ids: seq<nat>, a: nat)
    requires Enumerates(ids, {a, a + 1})
    ensures ids == [a, a + 1]
  {
    assert a in ids && a + 1 in ids;
    var i, j := Where(ids, a), Where(ids, a + 1);
    assert ids[0] in ids && ids[1] in ids && ids[|ids| - 1] in ids;
    assert ids[0] < ids[1];
  }

  /** Loaded by id, the older table is searched first. */
  lemma OlderAnswers(s: Store, c: Config, n: nat, a: nat)
    requires c.levels > 0 && n > 0 && s.data == map[] && s.wal == []
    requires s.files == map[a := Listing(NewTable(n)), a + 1 := Listing(OldTable(n))]
    ensures Read(Reopen(s, c, false), KeyOf(0)) == Some(Int(1))
  {
    hide Listing, Batch, Find, Enumerates, Reverse;
    var ids := IdsOf(s.files);
    assert s.files.Keys == {a, a + 1};
    TwoIds(ids, a);
    LoadedOrder(s.files, ids, [], c);
    var level := FromFiles(s.files, ids);
    assert level == [Table(a, Listing(NewTable(n))), Table(a + 1, Listing(OldTable(n)))];
    assert Reverse(level)[0] == level[1];
    BatchHas(n, Int(1), KeyOf(0));
    assert Find(Listing(OldTable(n)), KeyOf(0)) == Lookup(OldTable(n), KeyOf(0));
  }

  // ---------------------------------------------------------------- a run for every unsafe configuration

  lemma EmptyIs(c: Config)
    ensures Empty(c) == Store(c, map[], [], Bare(c.levels), 0, map[])
  {}

  /** The first batch of `n` keys, flushed, with no compaction. */
  lemma FirstBatch(c: Config, n: nat) returns (ops: seq<Op>, s: Store)
    requires Unsafe(c) && n == c.dataThreshold >= 2
    ensures NoRestart(ops) && s == RunFrom(Empty(c), ops)
    ensures s == Store(c, map[], [], Bare(c.levels)[0 := [Table(0, Listing(OldTable(n)))]], 1,
                       map[0 := Listing(OldTable(n))])
  {
    hide Listing, MaybeFlush, Step;
    var e, last := Empty(c), Interrupted(Set(KeyOf(n - 1), Int(1)), 0, {});
    EmptyIs(c);
    var f := e.(data := Batch(n - 1, Int(1)), wal := e.wal + FillWal(0, n - 1, Int(1)));
    assert e.data == Batch(0, Int(1));
    hide Batch, Empty;
    Filled(e, 0, n - 1, Int(1));
    FillQuiet(0, n - 1, Int(1));
    ops := Fill(0, n - 1, Int(1)) + [last];
    RunFromConcat(e, Fill(0, n - 1, Int(1)), [last]);
    RunFromOne(f, last);
    s := Step(f, last);
    InterruptedIs(f, Set(KeyOf(n - 1), Int(1)));
    Flushed(f, n, Int(1));
    assert Bare(c.levels)[0] + [Table(0, Listing(OldTable(n)))] == [Table(0, Listing(OldTable(n)))];
  }

  lemma InterruptedIs(s: Store, c: Command)
    ensures Step(s, Interrupted(c, 0, {})) == MaybeFlush(Log(s, c))
  {
    hide Flush, CutShort;
    NoPass(s, c);
  }

  predicate NoRestart(ops: seq<Op>) { forall op :: op in ops ==> !op.Restart? }

  lemma {:induction false} FillQuiet(lo: nat, hi: nat, v: Value)
    requires lo <= hi
    ensures NoRestart(Fill(lo, hi, v))
    decreases hi
  {
    if lo < hi { FillQuiet(lo, hi - 1, v); }
  }

  /** A write of the first key that fills nothing moves the table one level down. */
  lemma MoveByWrite(s: Store, c: Config, i: nat, t: Table)
    requires Unsafe(c) && s.config == c && c.dataThreshold >= 2 && i + 1 < c.levels
             && s.levels == Bare(c.levels)[i := [t]]
    requires s.data == map[] || s.data == Batch(1, Int(2))
    requires s.files == map[t.id := t.records] && t.id < s.nextId
    ensures var s', u := Write(s, Set(KeyOf(0), Int(2))), Table(s.nextId, t.records);
            && s'.config == c && s'.data == Batch(1, Int(2)) && s'.levels == Bare(c.levels)[i + 1 := [u]]
            && s'.files == map[u.id := u.records] && u.id < s'.nextId
  {
    hide Batch, MaybeCompact, Flush, Bare;
    var l := Log(s, Set(KeyOf(0), Int(2)));
    FirstKey(s, l.data);
    assert MaybeFlush(l) == l;
    MoveDown(l, i, t);
    assert map[t.id := t.records][s.nextId := t.records] - {t.id} == map[s.nextId := t.records];
  }

  lemma FirstKey(s: Store, data: map<Key, Entry>)
    requires (s.data == map[] || s.data == Batch(1, Int(2))) && data == s.data[KeyOf(0) := Put(Int(2))]
    ensures data == Batch(1, Int(2)) && |data| == 1
  {
    assert Batch(0, Int(2)) == map[];
    BatchSize(1, Int(2));
  }

  /** Two or more keys to a flush. */
  lemma ReachReady(c: Config, n: nat) returns (ops: seq<Op>, s: Store, id: nat)
    requires Unsafe(c) && n == c.dataThreshold >= 2
    ensures NoRestart(ops) && s == RunFrom(Empty(c), ops) && Ready(s, c, n, id)
  {
    hide Listing, Batch, Write, RunFrom, MaybeFlush;
    var first, a := FirstBatch(c, n);
    var w := Do(Set(KeyOf(0), Int(2)));
    var b, d := Step(a, w), Step(Step(a, w), w);
    MoveByWrite(a, c, 0, Table(0, Listing(OldTable(n))));
    MoveByWrite(b, c, 1, b.levels[1][0]);
    id := d.levels[2][0].id;
    RunFromOne(a, w);
    RunFromOne(b, w);
    RunFromConcat(a, [w], [w]);
    RunFromConcat(Empty(c), first, [w] + [w]);
    var fill := Fill(1, n - 1, Int(2));
    Filled(d, 1, n - 1, Int(2));
    FillQuiet(1, n - 1, Int(2));
    RunFromConcat(Empty(c), first + ([w] + [w]), fill);
    ops := first + ([w] + [w]) + fill;
    s := RunFrom(d, fill);
  }

  /** One key to a flush: three writes of it. */
  lemma ReachReadyOne(c: Config) returns (ops: seq<Op>, s: Store, id: nat)
    requires Unsafe(c) && c.dataThreshold <= 1
    ensures NoRestart(ops) && s == RunFrom(Empty(c), ops) && Ready(s, c, 1, id)
  {
    hide Listing, Batch, MaybeCompact, MaybeFlush, RunFrom, Log;
    var e, w := Empty(c), Do(Set(KeyOf(0), Int(1)));
    EmptyIs(c);
    assert map[] == Batch(0, Int(1)) == Batch(0, Int(2)) by { NoBatch(Int(1)); NoBatch(Int(2)); }
    var rs := Listing(OldTable(1));
    var a := Step(e, w);
    Flushed(e, 1, Int(1));
    var f := MaybeFlush(Log(e, w.c));
    assert Bare(c.levels)[0] + [Table(0, rs)] == [Table(0, rs)];
    MoveDown(f, 0, Table(0, rs));
    assert a == Store(c, map[], [], Bare(c.levels)[1 := [Table(1, rs)]], 2, map[1 := rs]);
    s := Step(a, w);
    Flushed(a, 1, Int(1));
    var g := MaybeFlush(Log(a, w.c));
    assert a.levels[0] + [Table(2, rs)] == [Table(2, rs)];
    SecondMove(g, rs);
    id := 4;
    RunFromOne(e, w);
    RunFromOne(a, w);
    RunFromConcat(e, [w], [w]);
    ops := [w] + [w];
  }

  lemma NoBatch(v: Value)
    ensures Batch(0, v) == map[]
  {}

  lemma SecondMove(g: Store, rs: seq<Record>)
    requires Unsafe(g.config) && g.nextId == 3 && Sorted(rs) && g.files == map[1 := rs, 2 := rs]
    requires g.levels == Bare(g.config.levels)[1 := [Table(1, rs)]][0 := [Table(2, rs)]]
    ensures MaybeCompact(g) ==
            g.(levels := Bare(g.config.levels)[2 := [Table(4, rs)]], nextId := 5, files := map[4 := rs])
  {
    hide Sorted, CompactLevel, MaybeCompact;
    PassOfTwo(g, 1, Table(2, rs), Table(1, rs));
    MoveSame(g, 0, Table(2, rs), Table(1, rs));
    var a := CompactLevel(g, 0, {});
    assert g.files[3 := rs] - {2, 1} == map[3 := rs];
    OneTable(g.config.levels, Table(2, rs), Table(1, rs), Table(3, rs));
    MoveOne(a, 1, Table(3, rs));
    assert map[3 := rs][4 := rs] - {3} == map[4 := rs];
    OneMoved(g.config.levels, 1, Table(3, rs), Table(4, rs));
  }

  lemma OneTable(n: nat, t: Table, u: Table, v: Table)
    requires n >= 4
    ensures Bare(n)[1 := [u]][0 := [t]][0 := []][1 := [v]] == Bare(n)[1 := [v]]
  {}

  lemma OneMoved(n: nat, i: nat, t: Table, u: Table)
    requires i + 1 < n
    ensures Bare(n)[i := [t]][i := []][i + 1 := [u]] == Bare(n)[i + 1 := [u]]
  {}

  /** All restarts of the run use the run's own configuration. */
  predicate OwnRestarts(c: Config, ops: seq<Op>) { forall op :: op in ops && op.Restart? ==> op.config == c }

  /** In every unsafe configuration a run ends in a reopen after which a key reads an overwritten value. */
  lemma ReopenCanLoseWrites(c: Config) returns (ops: seq<Op>)
    requires !SafeConfig(c)
    ensures NoRestart(ops)
    ensures Read(After(c, ops), KeyOf(0)) == Some(Int(2)) == Get(Plain(ops), KeyOf(0))
    ensures Read(Reopen(After(c, ops), c, false), KeyOf(0)) == Some(Int(1))
  {
    hide Listing, Batch, Write, RunFrom, Read, Reopen, Plain, Ready, After;
    var before, s, id;
    var n := if c.dataThreshold >= 2 then c.dataThreshold else 1;
    if c.dataThreshold >= 2 {
      before, s, id := ReachReady(c, n);
    } else {
      before, s, id := ReachReadyOne(c);
    }
    var w := Do(Set(KeyOf(n - 1), Int(2)));
    ReadyNow(s, c, n, id);
    var s' := Disordered(s, c, n, id);
    ops := before + [w];
    RunFromConcat(Empty(c), before, [w]);
    RunFromOne(s, w);
    RunFromEmpty(c, ops);
    OlderAnswers(s', c, n, s.nextId + 1);
    EngineRefinesMap(c, ops, KeyOf(0));
    RunFromEmpty(c, before);
    RunKeeps(c, before, []);
    NewerReads(s, c, n, id);
  }

  lemma ReadyNow(s: Store, c: Config, n: nat, id: nat)
    requires Ready(s, c, n, id)
    ensures n > 0 && s.config == c
  {}

  /** Before the reopen the key reads the newer value. */
  lemma NewerReads(s: Store, c: Config, n: nat, id: nat)
    requires Wf(s) && Ready(s, c, n, id)
    ensures Read(Write(s, Set(KeyOf(n - 1), Int(2))), KeyOf(0)) == Some(Int(2))
  {
    hide Listing, Write, Wf, CutShort, Batch;
    WriteReads(s, Set(KeyOf(n - 1), Int(2)), 0, {}, KeyOf(0));
    if n > 1 { BatchHas(n - 1, Int(2), KeyOf(0)); }
  }

  /** The safe configurations are exactly those in which reopening never changes a read, after any run. */
  lemma SafeExactly(c: Config)
    ensures SafeConfig(c) <==> forall ops, k :: OwnRestarts(c, ops) ==> Read(After(c, ops), k) == Get(Plain(ops), k)
  {
    hide Read, After, Plain, SafeConfig, Reopen;
    if SafeConfig(c) {
      forall ops, k | OwnRestarts(c, ops) ensures Read(After(c, ops), k) == Get(Plain(ops), k) {
        EngineRefinesMap(c, ops, k);
      }
    } else {
      var before := ReopenCanLoseWrites(c);
      var last := Restart(c, false);
      var ops := before + [last];
      assert OwnRestarts(c, ops);
      OneMore(c, before, last);
      assert Read(After(c, ops), KeyOf(0)) != Get(Plain(ops), KeyOf(0));
    }
  }

  lemma OneMore(c: Config, before: seq<Op>, last: Op)
    requires last.Restart?
    ensures After(c, before + [last]) == Reopen(After(c, before), last.config, last.halfFlushed)
    ensures Plain(before + [last]) == Plain(before)
  {
    hide Reopen;
    assert (before + [last])[..|before|] == before;
  }
}
