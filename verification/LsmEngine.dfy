/** The engine over whole runs: writes, interrupted compactions and reopens, against one plain map. */
module Engine {
  import opened Commands
  import opened Tables
  import opened KWayMerge
  import opened Store
  import opened StoreReads
  import opened StoreDisk
  import opened StorePass

  // ---------------------------------------------------------------- reopening

  lemma {:induction false} IdsExist(s: set<nat>) returns (ids: seq<nat>)
    ensures Enumerates(ids, s)
  {
    if s == {} {
      ids := [];
    } else {
      var m := Greatest(s);
      var rest := IdsExist(s - {m});
      ids := rest + [m];
      forall i, j | 0 <= i < j < |ids| ensures ids[i] < ids[j] {
        assert rest[i] in rest;
      }
    }
  }

  lemma {:induction false} Greatest(s: set<nat>) returns (m: nat)
    requires s != {}
    ensures m in s && forall x :: x in s ==> x <= m
  {
    m :| m in s;
    var rest := s - {m};
    assert forall x :: x in s ==> x in rest || x == m;
    if rest != {} {
      var m' := Greatest(rest);
      if m' > m { m := m'; }
    }
  }

  ghost function IdsOf(files: map<nat, seq<Record>>): (ids: seq<nat>)
    ensures Enumerates(ids, files.Keys)
  {
    assert exists ids :: Enumerates(ids, files.Keys) by { var ids := IdsExist(files.Keys); }
    var ids :| Enumerates(ids, files.Keys);
    ids
  }

  /** `halfFlushed`: the process died after a flush had written its table and before the log was cut. */
  ghost function FilesLeft(s: Store, halfFlushed: bool): map<nat, seq<Record>> {
    if halfFlushed && s.data != map[] then s.files[s.nextId := Listing(s.data)] else s.files
  }

  ghost function Reopen(s: Store, config: Config, halfFlushed: bool): Store {
    var files := FilesLeft(s, halfFlushed);
    Reopened(files, IdsOf(files), s.wal, config)
  }

  lemma LoadedOrder(files: map<nat, seq<Record>>, ids: seq<nat>, wal: seq<Command>, config: Config)
    requires Enumerates(ids, files.Keys) && config.levels > 0
    ensures var s, order := Reopened(files, ids, wal, config), Reverse(FromFiles(files, ids));
            && Order(s.levels) == order && Descending(order) && FilesMatch(order, files)
            && (forall f :: f in files ==> Table(f, files[f]) in order)
  {
    hide Order, Reverse;
    LevelZeroOnly(FromFiles(files, ids), config.levels - 1);
    NewestFirst(files, ids);
  }

  lemma LevelZeroOnly(level: seq<Table>, n: nat)
    ensures Order([level] + seq(n, _ => [])) == Reverse(level)
  {
    hide Reverse;
    var none: seq<seq<Table>> := seq(n, _ => []);
    assert ([level] + none)[1..] == none;
    NoTables(n);
    assert Reverse(level) + [] == Reverse(level);
  }

  lemma NewestFirst(files: map<nat, seq<Record>>, ids: seq<nat>)
    requires Enumerates(ids, files.Keys)
    ensures var order := Reverse(FromFiles(files, ids));
            Descending(order) && FilesMatch(order, files) && forall f :: f in files ==> Table(f, files[f]) in order
  {
    var level := FromFiles(files, ids);
    var order := Reverse(level);
    hide Reverse;
    forall f | f in files ensures Table(f, files[f]) in order {
      var i := Where(ids, f);
      assert order[|level| - 1 - i] == level[i];
    }
    forall t | t in order ensures t.id in files && files[t.id] == t.records {
      var p := Where(order, t);
      assert ids[|level| - 1 - p] in ids;
    }
  }

  lemma ReopenedOk(files: map<nat, seq<Record>>, ids: seq<nat>, wal: seq<Command>, config: Config)
    requires Enumerates(ids, files.Keys) && config.levels > 0 && forall f :: f in files ==> Sorted(files[f])
    ensures Wf(Reopened(files, ids, wal, config)) && DiskOk(Reopened(files, ids, wal, config))
  {
    hide Sorted, Find, Order, Reverse, ReplayWal;
    var s := Reopened(files, ids, wal, config);
    var order := Reverse(FromFiles(files, ids));
    LoadedOrder(files, ids, wal, config);
    forall f, k | f in files && Find(files[f], k).Some? ensures CoveredBy(order, f, k) {
      assert Table(f, files[f]) in order;
    }
    forall f | f in files ensures f < s.nextId {
      var i := Where(ids, f);
      assert i < |ids| - 1 ==> ids[i] < ids[|ids| - 1];
    }
  }

  predicate AnsweredBy(order: seq<Table>, i: nat, k: Key)
    requires i < |order|
  {
    Find(order[i].records, k).Some? && Search(order, k) == Find(order[i].records, k)
  }

  lemma NewestCovers(order: seq<Table>, f: nat, k: Key)
    requires Descending(order) && CoveredBy(order, f, k)
    ensures exists i :: 0 <= i < |order| && order[i].id >= f && AnsweredBy(order, i, k)
  {
    hide Find;
    var t :| t in order && t.id >= f && Find(t.records, k).Some?;
    var b := Where(order, t);
    if Search(order, k) == None {
      NoneFound(order, b, k);
    }
    var i := SearchWitness(order, k);
    assert i <= b && AnsweredBy(order, i, k);
  }

  /** Two lists of tables, both newest id first, answer alike when one covers the other. */
  lemma SameSearch(order: seq<Table>, all: seq<Table>, k: Key)
    requires Descending(order) && Descending(all) && forall t :: t in order ==> t in all
    requires forall t :: t in all && Find(t.records, k).Some? ==> CoveredBy(order, t.id, k)
    ensures Search(order, k) == Search(all, k)
  {
    hide Find, CoveredBy;
    if Search(all, k) == None {
      if Search(order, k).Some? {
        var i := SearchWitness(order, k);
        NoneFound(all, Where(all, order[i]), k);
      }
    } else {
      var j := SearchWitness(all, k);
      assert all[j] in all;
      NewestCovers(order, all[j].id, k);
      var i :| 0 <= i < |order| && order[i].id >= all[j].id && AnsweredBy(order, i, k);
      var a := Where(all, order[i]);
      assert a == j;
    }
  }

  lemma ReopenSearch(s: Store, files: map<nat, seq<Record>>, ids: seq<nat>, config: Config, k: Key)
    requires DiskOk(s) && |s.levels| > 0 && config.levels > 0 && Enumerates(ids, files.Keys)
    requires forall f :: f in s.files ==> f in files && files[f] == s.files[f]
    requires forall f :: f in files && Find(files[f], k).Some? ==> f in s.files
    ensures Search(Order(Reopened(files, ids, s.wal, config).levels), k) == Search(Order(s.levels), k)
  {
    hide Find, Order, Reverse, Search, ReplayWal, FromFiles;
    var order, all := Order(s.levels), Reverse(FromFiles(files, ids));
    LoadedOrder(files, ids, s.wal, config);
    forall t | t in order ensures t in all {
      assert Table(t.id, files[t.id]) in all;
    }
    SameSearch(order, all, k);
  }

  /** Reopening changes no read, whatever merged inputs are still on disk. */
  lemma ReopenReads(s: Store, config: Config, halfFlushed: bool, k: Key)
    requires Wf(s) && DiskOk(s) && (config.levels > 0 <==> |s.levels| > 0)
    ensures var s' := Reopen(s, config, halfFlushed);
            Wf(s') && DiskOk(s') && Latest(s', k) == Latest(s, k)
  {
    hide Find, Search, Sorted, Order, Reverse, ReplayWal, Descending, Covered, FilesMatch, FromFiles, Enumerates;
    var files := FilesLeft(s, halfFlushed);
    var ids := IdsOf(files);
    assert Find(Listing(s.data), k) == Lookup(s.data, k);
    if config.levels > 0 {
      ReopenedOk(files, ids, s.wal, config);
      if k !in s.data {
        ReopenSearch(s, files, ids, config, k);
      }
    } else {
      assert s.levels == [];
    }
  }

  // ---------------------------------------------------------------- runs

  datatype Op =
    | Do(c: Command)
    | Interrupted(c: Command, levels: nat, kept: set<nat>)
    | Restart(config: Config, halfFlushed: bool)

  ghost function Step(s: Store, op: Op): Store {
    match op
    case Do(c) => Write(s, c)
    case Interrupted(c, n, kept) => CutShort(s, c, n, kept)
    case Restart(config, halfFlushed) => Reopen(s, config, halfFlushed)
  }

  ghost function After(config: Config, ops: seq<Op>): Store {
    if |ops| == 0 then Empty(config) else Step(After(config, ops[..|ops| - 1]), ops[|ops| - 1])
  }

  /** The same writes, on a plain map. */
  function Plain(ops: seq<Op>): map<Key, Value> {
    if |ops| == 0 then map[]
    else
      var m, op := Plain(ops[..|ops| - 1]), ops[|ops| - 1];
      if op.Restart? then m else Apply(m, op.c)
  }

  /**
    Reopening needs a configuration in which ids tell recency, and must not turn a store with levels into one without.
  */
  ghost predicate Allowed(config: Config, ops: seq<Op>) {
    (forall op :: op in ops ==> !op.Restart?)
    || (SafeConfig(config) && forall op :: op in ops && op.Restart? ==>
          SafeConfig(op.config) && (op.config.levels > 0 <==> config.levels > 0))
  }

  lemma EmptyDisk(config: Config)
    ensures DiskOk(Empty(config))
  {
    NoTables(config.levels);
  }

  lemma WriteDisk(s: Store, c: Command, n: nat, kept: set<nat>)
    requires Wf(s) && DiskOk(s) && SafeConfig(s.config)
    ensures DiskOk(Write(s, c)) && DiskOk(CutShort(s, c, n, kept))
    ensures Write(s, c).config == s.config == CutShort(s, c, n, kept).config
  {
    hide Wf, DiskOk, Flags, Gap, Flush, Pass;
    LogReads(s, c, []);
    LogDisk(s, c);
    FlushReads(Log(s, c), []);
    FlushDisk(Log(s, c));
    FlushFrame(Log(s, c));
    var s' := MaybeFlush(Log(s, c));
    SafeHasNoGap(s');
    PartOfPass(s', |Flags(s')|, {});
    PartOfPass(s', if n <= |Flags(s')| then n else |Flags(s')|, kept);
  }

  lemma LogDisk(s: Store, c: Command)
    requires DiskOk(s)
    ensures DiskOk(Log(s, c)) && Log(s, c).config == s.config
  {
    hide Descending, FilesMatch, FilesBelow, Covered, Order;
  }

  lemma FlushFrame(s: Store)
    ensures Flush(s).config == s.config && |Flush(s).levels| == |s.levels|
  {}

  lemma PartOfPass(s: Store, n: nat, kept: set<nat>)
    requires Wf(s) && DiskOk(s) && n <= |Flags(s)| && !Gap(Flags(s))
    ensures DiskOk(Pass(s, Flags(s), n, kept)) && Pass(s, Flags(s), n, kept).config == s.config
  {
    hide Wf, DiskOk, Gap;
    PassReads(s, Flags(s), n, kept, []);
    if |s.levels| >= 2 {
      PassDisk(s, n, kept);
    }
  }

  /** What a run keeps: reads are the plain map's, and in safe configurations the disk is in order. */
  lemma {:induction false} RunKeeps(config: Config, ops: seq<Op>, k: Key)
    requires Allowed(config, ops)
    ensures var s := After(config, ops);
            && Wf(s) && Read(s, k) == Get(Plain(ops), k) && (s.config.levels > 0 <==> config.levels > 0)
            && (SafeConfig(config) ==> DiskOk(s) && SafeConfig(s.config))
            && ((forall op :: op in ops ==> !op.Restart?) ==> s.config == config)
  {
    hide Wf, DiskOk, Latest, Write, CutShort, Reopen, Empty, SafeConfig;
    if |ops| == 0 {
      EmptyReads(config, k);
      EmptyDisk(config);
      EmptyConfig(config);
    } else {
      var before, op := ops[..|ops| - 1], ops[|ops| - 1];
      assert ops == before + [op];
      RunKeeps(config, before, k);
      var s := After(config, before);
      if op.Restart? {
        assert op in ops;
        LevelsOf(s);
        ReopenReads(s, op.config, op.halfFlushed, k);
        ReopenConfig(s, op.config, op.halfFlushed);
      } else {
        var (n, kept) := if op.Do? then (0, {}) else (op.levels, op.kept);
        WriteReads(s, op.c, n, kept, k);
        WriteConfig(s, op.c, n, kept);
        if SafeConfig(config) {
          WriteDisk(s, op.c, n, kept);
        }
      }
    }
  }

  lemma EmptyConfig(config: Config)
    ensures Empty(config).config == config
  {}

  lemma LevelsOf(s: Store)
    requires Wf(s)
    ensures |s.levels| == s.config.levels
  {}

  lemma ReopenConfig(s: Store, config: Config, halfFlushed: bool)
    ensures Reopen(s, config, halfFlushed).config == config
  {}

  lemma WriteConfig(s: Store, c: Command, n: nat, kept: set<nat>)
    requires Wf(s)
    ensures Write(s, c).config == s.config == CutShort(s, c, n, kept).config
  {
    hide Wf, Flags, Flush, Pass;
    LogReads(s, c, []);
    FlushReads(Log(s, c), []);
    FlushFrame(Log(s, c));
    var s' := MaybeFlush(Log(s, c));
    PassReads(s', Flags(s'), |Flags(s')|, {}, []);
    PassReads(s', Flags(s'), if n <= |Flags(s')| then n else |Flags(s')|, kept, []);
  }

  /**
    The engine is a map: after any run of writes, interrupted compactions and (in safe configurations)
    reopens, every read returns what a plain map given the same writes returns.
  */
  lemma EngineRefinesMap(config: Config, ops: seq<Op>, k: Key)
    requires Allowed(config, ops)
    ensures Read(After(config, ops), k) == Get(Plain(ops), k)
  {
    hide Allowed, Read, After, Plain;
    RunKeeps(config, ops, k);
  }

  /** Every level below the first holds at most one table, in every state of every run. */
  lemma LowerLevelsHoldOne(config: Config, ops: seq<Op>, i: nat)
    requires Allowed(config, ops) && 1 <= i < |After(config, ops).levels|
    ensures |After(config, ops).levels[i]| <= 1
  {
    hide Allowed, After, AllSorted, ReplayWal;
    RunKeeps(config, ops, []);
  }

  /** In safe configurations, newer means larger id in every state of every run. */
  lemma IdOrderIsRecency(config: Config, ops: seq<Op>)
    requires Allowed(config, ops) && SafeConfig(config)
    ensures Descending(Order(After(config, ops).levels))
  {
    hide Allowed, After, Wf, Descending;
    RunKeeps(config, ops, []);
    NoLevelsNoTables(After(config, ops));
  }

  lemma NoLevelsNoTables(s: Store)
    ensures |s.levels| == 0 ==> Descending(Order(s.levels))
  {}

  /** A deleted key stays deleted until it is written again. */
  lemma {:induction false} DeletedStaysDeleted(config: Config, ops: seq<Op>, i: nat, k: Key)
    requires Allowed(config, ops) && i < |ops| && !ops[i].Restart? && ops[i].c == Delete(k)
    requires forall j :: i < j < |ops| && !ops[j].Restart? ==> ops[j].c.key != k
    ensures Read(After(config, ops), k) == None
  {
    hide Allowed, After, Read;
    EngineRefinesMap(config, ops, k);
    DeletedInPlain(ops, i, k);
  }

  lemma {:induction false} DeletedInPlain(ops: seq<Op>, i: nat, k: Key)
    requires i < |ops| && !ops[i].Restart? && ops[i].c == Delete(k)
    requires forall j :: i < j < |ops| && !ops[j].Restart? ==> ops[j].c.key != k
    ensures k !in Plain(ops)
  {
    if i < |ops| - 1 {
      DeletedInPlain(ops[..|ops| - 1], i, k);
    }
  }
}
