/**
  Crash consistency, from the bytes of the log up to what a client reads: what a log cut at any byte and
  reopened over the tables on disk reads, and exactly when that is the engine after a prefix of its writes.
*/
module CrashRecovery {
  import opened Commands
  import opened ByteForms
  import opened Frames
  import opened Wal
  import opened Tables
  import opened KWayMerge
  import opened Store
  import opened StoreReads
  import opened StoreDisk
  import opened StorePass
  import opened Engine

  /** The commands written by a run, in order. */
  function Writes(ops: seq<Op>): seq<Command> {
    if |ops| == 0 then []
    else Writes(ops[..|ops| - 1]) + if ops[|ops| - 1].Restart? then [] else [ops[|ops| - 1].c]
  }

  /** The plain map `m` after `cs`. */
  function AppliedTo(m: map<Key, Value>, cs: seq<Command>): map<Key, Value> {
    if |cs| == 0 then m else Apply(AppliedTo(m, cs[..|cs| - 1]), cs[|cs| - 1])
  }

  lemma {:induction false} AppliedConcat(m: map<Key, Value>, a: seq<Command>, b: seq<Command>)
    ensures AppliedTo(m, a + b) == AppliedTo(AppliedTo(m, a), b)
  {
    if |b| == 0 {
      assert a + b == a;
    } else {
      assert (a + b)[..|a + b| - 1] == a + b[..|b| - 1];
      AppliedConcat(m, a, b[..|b| - 1]);
    }
  }

  predicate Written(cs: seq<Command>, k: Key) { exists i :: 0 <= i < |cs| && cs[i].key == k }

  lemma {:induction false} ReplayHas(cs: seq<Command>, k: Key)
    ensures k in ReplayWal(cs) <==> Written(cs, k)
  {
    if |cs| > 0 {
      var front := cs[..|cs| - 1];
      ReplayHas(front, k);
      assert Written(front, k) ==> Written(cs, k);
      assert cs[|cs| - 1].key == k ==> Written(cs, k);
      assert Written(cs, k) ==> Written(front, k) || cs[|cs| - 1].key == k;
    }
  }

  /** The last write of a key decides; a key not written keeps its value. */
  lemma {:induction false} AppliedGet(m: map<Key, Value>, cs: seq<Command>, k: Key)
    ensures Get(AppliedTo(m, cs), k) == if k in ReplayWal(cs) then ValueOf(Some(ReplayWal(cs)[k])) else Get(m, k)
  {
    if |cs| > 0 {
      AppliedGet(m, cs[..|cs| - 1], k);
    }
  }

  lemma SameMap(m: map<Key, Value>, m': map<Key, Value>)
    requires forall k :: Get(m, k) == Get(m', k)
    ensures m == m'
  {
    assert forall k :: k in m <==> Get(m, k).Some?;
    assert forall k :: k in m' <==> Get(m', k).Some?;
    assert forall k :: k in m ==> m[k] == Get(m, k).value == Get(m', k).value == m'[k];
  }

  /** Writing a prefix first and then everything is writing everything. */
  lemma AppliedAgain(m: map<Key, Value>, cs: seq<Command>, h: nat)
    requires h <= |cs|
    ensures AppliedTo(AppliedTo(m, cs[..h]), cs) == AppliedTo(m, cs)
  {
    hide AppliedTo, ReplayWal, Get;
    var m' := AppliedTo(m, cs[..h]);
    forall k ensures Get(AppliedTo(m', cs), k) == Get(AppliedTo(m, cs), k) {
      AppliedGet(m', cs, k);
      AppliedGet(m, cs, k);
      AppliedGet(m, cs[..h], k);
      ReplayHas(cs, k);
      ReplayHas(cs[..h], k);
      assert Written(cs[..h], k) ==> Written(cs, k);
    }
    SameMap(AppliedTo(m', cs), AppliedTo(m, cs));
  }

  // ---------------------------------------------------------------- what is in the tables

  /** The tables answer as the plain map `m`. */
  ghost predicate TablesAre(levels: seq<seq<Table>>, m: map<Key, Value>) {
    forall k :: ValueOf(Search(Order(levels), k)) == Get(m, k)
  }

  /**
    The log holds the last writes, and the tables are the plain map of all writes before them and of the
    first `covered` in the log. (A table whose flush did not get to cutting the log covers what the log holds.)
  */
  ghost predicate Durable(s: Store, cs: seq<Command>, covered: nat) {
    && covered <= |s.wal| <= |cs| && s.wal == cs[|cs| - |s.wal|..]
    && TablesAre(s.levels, AppliedTo(map[], cs[..|cs| - |s.wal| + covered]))
  }

  /** A memtable replayed over tables reads as the same commands on the tables' map. */
  lemma ReplayOver(levels: seq<seq<Table>>, m: map<Key, Value>, wal: seq<Command>, k: Key)
    requires TablesAre(levels, m)
    ensures var data := ReplayWal(wal);
            ValueOf(if k in data then Some(data[k]) else Search(Order(levels), k)) == Get(AppliedTo(m, wal), k)
  {
    hide Search, Order, ReplayWal, AppliedTo, Get;
    AppliedGet(m, wal, k);
  }

  // ---------------------------------------------------------------- each operation

  lemma LogDurable(s: Store, c: Command, cs: seq<Command>, h: nat)
    requires Durable(s, cs, h)
    ensures Durable(Log(s, c), cs + [c], h)
  {
    hide TablesAre, AppliedTo;
    var b := |cs| - |s.wal|;
    assert (cs + [c])[b..] == cs[b..] + [c];
    assert (cs + [c])[..b + h] == cs[..b + h];
  }

  /** A flush moves everything the log holds into a table, covered or not. */
  lemma FlushTables(s: Store, cs: seq<Command>, h: nat)
    requires Wf(s) && Durable(s, cs, h) && |s.levels| > 0 && s.data != map[]
    ensures TablesAre(Flush(s).levels, AppliedTo(map[], cs)) && Flush(s).wal == []
  {
    hide Search, Order, Sorted, Find, ReplayWal, AppliedTo, Get;
    var b, s' := |cs| - |s.wal|, Flush(s);
    var before := AppliedTo(map[], cs[..b]);
    AppliedConcat(map[], cs[..b], s.wal);
    AppliedConcat(map[], cs[..b], s.wal[..h]);
    AppliedAgain(before, s.wal, h);
    assert cs[..b] + s.wal == cs && cs[..b] + s.wal[..h] == cs[..b + h];
    forall k ensures ValueOf(Search(Order(s'.levels), k)) == Get(AppliedTo(map[], cs), k) {
      FlushReads(s, k);
      ReplayOver(s.levels, AppliedTo(map[], cs[..b + h]), s.wal, k);
    }
  }

  /** What is covered after a write or a flush: nothing once the log has been cut. */
  function CoverAfter(s': Store, h: nat): nat { if |s'.wal| == 0 then 0 else h }

  lemma FlushDurable(s: Store, cs: seq<Command>, h: nat)
    requires Wf(s) && Durable(s, cs, h)
    ensures Durable(Flush(s), cs, CoverAfter(Flush(s), h))
  {
    hide TablesAre, AppliedTo, ReplayWal;
    if s.data != map[] && |s.levels| > 0 {
      FlushTables(s, cs, h);
      assert cs[..|cs|] == cs && cs[|cs|..] == [];
    }
  }

  /** What does not change any search, the log or the memtable keeps durability. */
  lemma SameDurable(s: Store, s': Store, cs: seq<Command>, h: nat)
    requires Durable(s, cs, h) && s'.wal == s.wal
    requires forall k :: Search(Order(s'.levels), k) == Search(Order(s.levels), k)
    ensures Durable(s', cs, h)
  {
    hide Search, Order, AppliedTo;
  }

  lemma {:induction false} PassSearch(s: Store, flags: seq<bool>, n: nat, kept: set<nat>, k: Key)
    requires Wf(s) && n <= |flags|
    ensures Search(Order(Pass(s, flags, n, kept).levels), k) == Search(Order(s.levels), k)
  {
    hide Search, Order, Wf, CompactLevel;
    if n > 0 {
      PassSearch(s, flags, n - 1, kept, k);
      PassReads(s, flags, n - 1, kept, k);
      CompactSearch(Pass(s, flags, n - 1, kept), n - 1, kept, k);
    }
  }

  lemma CompactSearch(s: Store, i: nat, kept: set<nat>, k: Key)
    requires Wf(s)
    ensures Search(Order(CompactLevel(s, i, kept).levels), k) == Search(Order(s.levels), k)
  {
    hide Search, Order, Merged, ReplayWal;
    if i + 1 < |s.levels| && s.levels[i] != [] {
      assert s.levels[i] + [] == s.levels[i];
      PublishKeepsSearch(s.levels, i, s.levels[i], [], s.levels[i + 1], s.nextId, k);
    }
  }

  lemma PassDurable(s: Store, n: nat, kept: set<nat>, cs: seq<Command>, h: nat)
    requires Wf(s) && Durable(s, cs, h) && n <= |Flags(s)|
    ensures Durable(Pass(s, Flags(s), n, kept), cs, h) && Pass(s, Flags(s), n, kept).wal == s.wal
  {
    hide Wf, Durable, Search, Order, Flags, Pass;
    PassReads(s, Flags(s), n, kept, []);
    forall k ensures Search(Order(Pass(s, Flags(s), n, kept).levels), k) == Search(Order(s.levels), k) {
      PassSearch(s, Flags(s), n, kept, k);
    }
    SameDurable(s, Pass(s, Flags(s), n, kept), cs, h);
  }

  lemma WriteDurable(s: Store, c: Command, n: nat, kept: set<nat>, cs: seq<Command>, h: nat)
    requires Wf(s) && Durable(s, cs, h)
    ensures Durable(Write(s, c), cs + [c], CoverAfter(Write(s, c), h))
    ensures Durable(CutShort(s, c, n, kept), cs + [c], CoverAfter(CutShort(s, c, n, kept), h))
  {
    hide Wf, Durable, Flags, Flush, Pass;
    LogReads(s, c, []);
    LogDurable(s, c, cs, h);
    FlushReads(Log(s, c), []);
    FlushDurable(Log(s, c), cs + [c], h);
    var s' := MaybeFlush(Log(s, c));
    PassDurable(s', |Flags(s')|, {}, cs + [c], CoverAfter(s', h));
    PassDurable(s', if n <= |Flags(s')| then n else |Flags(s')|, kept, cs + [c], CoverAfter(s', h));
  }

  // ---------------------------------------------------------------- reopening

  /** A half-finished flush that left its table behind. */
  predicate HalfFlush(s: Store, halfFlushed: bool) { halfFlushed && s.data != map[] && |s.levels| > 0 }

  /** The store whose tables are the files that are left. */
  ghost function Left(s: Store, halfFlushed: bool): Store {
    if HalfFlush(s, halfFlushed) then Flush(s) else s
  }

  /** What is covered once the files that are left are loaded. */
  function CoverLeft(s: Store, halfFlushed: bool, h: nat): nat {
    if HalfFlush(s, halfFlushed) then |s.wal| else h
  }

  lemma LeftOk(s: Store, halfFlushed: bool)
    requires Wf(s) && DiskOk(s)
    ensures var l := Left(s, halfFlushed);
            Wf(l) && DiskOk(l) && |l.levels| == |s.levels| && (|s.levels| > 0 ==> l.files == FilesLeft(s, halfFlushed))
  {
    hide Wf, DiskOk;
    if HalfFlush(s, halfFlushed) {
      FlushReads(s, []);
      FlushDisk(s);
      FlushFrame(s);
    }
  }

  /** The tables of a store reopened from the files that are left, whatever its log. */
  lemma ReopenedSearch(s: Store, halfFlushed: bool, wal: seq<Command>, config: Config, k: Key)
    requires Wf(s) && DiskOk(s) && (config.levels > 0 <==> |s.levels| > 0)
    ensures var files := FilesLeft(s, halfFlushed);
            Search(Order(Reopened(files, IdsOf(files), wal, config).levels), k) ==
            Search(Order(Left(s, halfFlushed).levels), k)
  {
    hide Search, Order, DiskOk, ReplayWal, Enumerates, Find, FromFiles, Wf, Left, FilesLeft;
    LeftOk(s, halfFlushed);
    var l := Left(s, halfFlushed);
    if config.levels > 0 {
      ReopenSearch(l, l.files, IdsOf(l.files), config, k);
    } else {
      assert l.levels == [];
    }
  }

  /** A store reopened from what is left of `s`, with any log `wal`. */
  ghost function ReopenedLeft(s: Store, halfFlushed: bool, wal: seq<Command>, config: Config): Store {
    Reopened(FilesLeft(s, halfFlushed), IdsOf(FilesLeft(s, halfFlushed)), wal, config)
  }

  lemma LeftTables(s: Store, halfFlushed: bool, wal: seq<Command>, config: Config, cs: seq<Command>, h: nat)
    requires Wf(s) && DiskOk(s) && Durable(s, cs, h) && (config.levels > 0 <==> |s.levels| > 0)
    ensures TablesAre(ReopenedLeft(s, halfFlushed, wal, config).levels,
                      AppliedTo(map[], cs[..|cs| - |s.wal| + CoverLeft(s, halfFlushed, h)]))
  {
    hide Wf, DiskOk, Search, Order, ReplayWal, Enumerates, FromFiles, FilesLeft, Flush, AppliedTo;
    var s', upTo := ReopenedLeft(s, halfFlushed, wal, config), |cs| - |s.wal| + CoverLeft(s, halfFlushed, h);
    if HalfFlush(s, halfFlushed) {
      FlushTables(s, cs, h);
      assert cs[..upTo] == cs;
    }
    forall k ensures ValueOf(Search(Order(s'.levels), k)) == Get(AppliedTo(map[], cs[..upTo]), k) {
      ReopenedSearch(s, halfFlushed, wal, config, k);
    }
  }

  lemma RestartDurable(s: Store, config: Config, halfFlushed: bool, cs: seq<Command>, h: nat)
    requires Wf(s) && DiskOk(s) && Durable(s, cs, h) && (config.levels > 0 <==> |s.levels| > 0)
    ensures Durable(Reopen(s, config, halfFlushed), cs, CoverLeft(s, halfFlushed, h))
  {
    hide Wf, DiskOk, TablesAre, ReplayWal, Enumerates, FromFiles, FilesLeft, AppliedTo;
    LeftTables(s, halfFlushed, s.wal, config, cs, h);
  }

  // ---------------------------------------------------------------- runs

  /** How many of the log's records a run's tables cover. */
  ghost function InTables(config: Config, ops: seq<Op>): nat {
    if |ops| == 0 then 0
    else
      var before, op := ops[..|ops| - 1], ops[|ops| - 1];
      if op.Restart? then CoverLeft(After(config, before), op.halfFlushed, InTables(config, before))
      else CoverAfter(After(config, ops), InTables(config, before))
  }

  predicate CleanFlushes(ops: seq<Op>) { forall op :: op in ops && op.Restart? ==> !op.halfFlushed }

  /** Without half-finished flushes nothing in the log is covered. */
  lemma {:induction false} CleanCoversNothing(config: Config, ops: seq<Op>)
    requires CleanFlushes(ops)
    ensures InTables(config, ops) == 0
  {
    hide After;
    if |ops| > 0 {
      var before, op := ops[..|ops| - 1], ops[|ops| - 1];
      assert ops == before + [op] && op in ops;
      CleanCoversNothing(config, before);
    }
  }

  lemma EmptyDurable(config: Config)
    ensures Durable(Empty(config), [], 0)
  {
    NoTables(config.levels);
    assert forall k :: Search([], k) == None;
  }

  /**
    After every run, half-finished flushes and all: the log is the last writes, the tables all before and the covered.
  */
  lemma {:induction false} RunDurable(config: Config, ops: seq<Op>)
    requires Allowed(config, ops)
    ensures Durable(After(config, ops), Writes(ops), InTables(config, ops))
  {
    hide Durable, Wf, DiskOk, Write, CutShort, Reopen, Empty, SafeConfig, CoverLeft, CoverAfter;
    if |ops| == 0 {
      EmptyDurable(config);
    } else {
      var before, op := ops[..|ops| - 1], ops[|ops| - 1];
      assert ops == before + [op];
      RunDurable(config, before);
      RunKeeps(config, before, []);
      var s, h := After(config, before), InTables(config, before);
      if op.Restart? {
        assert op in ops;
        LevelsOf(s);
        RestartDurable(s, op.config, op.halfFlushed, Writes(before), h);
        assert Writes(before) + [] == Writes(before);
      } else {
        var (n, kept) := if op.Do? then (0, {}) else (op.levels, op.kept);
        WriteDurable(s, op.c, n, kept, Writes(before), h);
      }
    }
  }

  /** Commands a caller can check before the run: each fits a log record, and they are fewer than 2^64. */
  lemma LogIsLoggable(t: Text, config: Config, ops: seq<Op>)
    requires Allowed(config, ops) && Loggable(t, Writes(ops))
    ensures Loggable(t, After(config, ops).wal)
  {
    hide After, Writes, Allowed, ValidCommand, Payload, TablesAre;
    RunDurable(config, ops);
  }

  // ---------------------------------------------------------------- the log cut at any byte

  function CommandsOf(rs: seq<LogRecord>): (cs: seq<Command>)
    ensures |cs| == |rs| && forall i :: 0 <= i < |rs| ==> cs[i] == rs[i].1
  {
    seq(|rs|, i requires 0 <= i < |rs| => rs[i].1)
  }

  /**
    What opening the directory finds when the log file has lost everything from byte `cut` on, and when,
    if `halfFlushed`, a flush had written its table and not yet cut the log.
  */
  ghost function AfterCrash(t: Text, s: Store, halfFlushed: bool, cut: nat, config: Config): Store
    requires cut <= |LogFile(t, s.wal)|
  {
    var records := Scan(Wal.Reader(t), LogFile(t, s.wal)[..cut], 0).values;
    ReopenedLeft(s, halfFlushed, CommandsOf(records), config)
  }

  /** Every read is the plain map's. */
  ghost predicate ReadsAs(s: Store, m: map<Key, Value>) { forall k :: Read(s, k) == Get(m, k) }

  /**
    A crash after a run: where the log begins in the writes, how many of its records survive, and how many tables cover.
  */
  datatype Crash = Crash(begin: nat, whole: nat, covered: nat)

  ghost function CrashOf(t: Text, config: Config, ops: seq<Op>, halfFlushed: bool, cut: nat): (r: Crash)
    requires Allowed(config, ops)
    ensures r.begin + r.whole <= |Writes(ops)| && r.begin + r.covered <= |Writes(ops)|
  {
    RunDurable(config, ops);
    var s := After(config, ops);
    Crash(|Writes(ops)| - |s.wal|, Whole(Writer(t), Numbered(s.wal, 0), cut),
          CoverLeft(s, halfFlushed, InTables(config, ops)))
  }

  ghost predicate CanCrash(t: Text, config: Config, ops: seq<Op>, cut: nat, config': Config) {
    && Allowed(config, ops) && SafeConfig(config) && (config'.levels > 0 <==> config.levels > 0)
    && Lawful(t) && Loggable(t, Writes(ops)) && cut <= |LogFile(t, After(config, ops).wal)|
  }

  /**
    What is read after any crash: the tables, which hold all writes before the log and those they cover,
    and over them the log records that lie wholly before the cut.
  */
  lemma CrashReads(t: Text, config: Config, ops: seq<Op>, halfFlushed: bool, cut: nat, config': Config)
    requires CanCrash(t, config, ops, cut, config')
    ensures var cs, r := Writes(ops), CrashOf(t, config, ops, halfFlushed, cut);
            ReadsAs(AfterCrash(t, After(config, ops), halfFlushed, cut, config'),
                    AppliedTo(AppliedTo(map[], cs[..r.begin + r.covered]), cs[r.begin..r.begin + r.whole]))
  {
    hide Allowed, SafeConfig, Lawful, Loggable, After, Writes, Scan, LogFile, Whole, Wf, DiskOk, Search, Order,
      Enumerates, FromFiles, AppliedTo, ReplayWal, TablesAre, FilesLeft, CoverLeft, InTables;
    var s, cs, r := After(config, ops), Writes(ops), CrashOf(t, config, ops, halfFlushed, cut);
    RunKeeps(config, ops, []);
    RunDurable(config, ops);
    LevelsOf(s);
    LogIsLoggable(t, config, ops);
    CutLog(t, s.wal, cut);
    var kept := s.wal[..r.whole];
    assert CommandsOf(Scan(Wal.Reader(t), LogFile(t, s.wal)[..cut], 0).values) == kept;
    assert kept == cs[r.begin..r.begin + r.whole];
    var s', tables := ReopenedLeft(s, halfFlushed, kept, config'), AppliedTo(map[], cs[..r.begin + r.covered]);
    LeftTables(s, halfFlushed, kept, config', cs, InTables(config, ops));
    assert s'.data == ReplayWal(kept);
    forall k ensures Read(s', k) == Get(AppliedTo(tables, kept), k) {
      ReplayOver(s'.levels, tables, kept, k);
    }
  }

  /**
    What the tables cover beyond the cut does no harm: each such write is of a key that a surviving record
    writes again, or one whose value is back where it was before the log began.
  */
  ghost predicate Harmless(cs: seq<Command>, r: Crash)
    requires r.begin + r.whole <= |cs| && r.begin + r.covered <= |cs|
  {
    forall i :: r.begin + r.whole <= i < r.begin + r.covered ==>
      Written(cs[r.begin..r.begin + r.whole], cs[i].key)
      || Get(AppliedTo(map[], cs[..r.begin + r.covered]), cs[i].key) == Get(AppliedTo(map[], cs[..r.begin]), cs[i].key)
  }

  lemma HarmlessAt(cs: seq<Command>, r: Crash, k: Key)
    requires r.begin + r.whole <= |cs| && r.begin + r.covered <= |cs|
    ensures var tables, kept := AppliedTo(map[], cs[..r.begin + r.covered]), cs[r.begin..r.begin + r.whole];
            var before := AppliedTo(map[], cs[..r.begin]);
            Get(AppliedTo(tables, kept), k) == Get(AppliedTo(map[], cs[..r.begin + r.whole]), k)
            <==> Written(kept, k) || Get(tables, k) == Get(before, k)
  {
    hide AppliedTo, ReplayWal, Get;
    var tables, kept := AppliedTo(map[], cs[..r.begin + r.covered]), cs[r.begin..r.begin + r.whole];
    var before := AppliedTo(map[], cs[..r.begin]);
    AppliedConcat(map[], cs[..r.begin], kept);
    assert cs[..r.begin] + kept == cs[..r.begin + r.whole];
    AppliedGet(tables, kept, k);
    AppliedGet(before, kept, k);
    ReplayHas(kept, k);
  }

  /** A key whose value in the tables differs from before the log was written in the covered part. */
  lemma ChangedIsWritten(cs: seq<Command>, r: Crash, k: Key)
    requires r.begin + r.covered <= |cs|
    requires Get(AppliedTo(map[], cs[..r.begin + r.covered]), k) != Get(AppliedTo(map[], cs[..r.begin]), k)
    ensures Written(cs[r.begin..r.begin + r.covered], k)
  {
    hide AppliedTo, ReplayWal, Get;
    var before, part := AppliedTo(map[], cs[..r.begin]), cs[r.begin..r.begin + r.covered];
    AppliedConcat(map[], cs[..r.begin], part);
    assert cs[..r.begin] + part == cs[..r.begin + r.covered];
    AppliedGet(before, part, k);
    ReplayHas(part, k);
  }

  lemma HarmlessIff(cs: seq<Command>, r: Crash)
    requires r.begin + r.whole <= |cs| && r.begin + r.covered <= |cs|
    ensures var tables, kept := AppliedTo(map[], cs[..r.begin + r.covered]), cs[r.begin..r.begin + r.whole];
            AppliedTo(tables, kept) == AppliedTo(map[], cs[..r.begin + r.whole]) <==> Harmless(cs, r)
  {
    hide AppliedTo, Get, Written;
    var tables, kept := AppliedTo(map[], cs[..r.begin + r.covered]), cs[r.begin..r.begin + r.whole];
    var before, prefix := AppliedTo(map[], cs[..r.begin]), AppliedTo(map[], cs[..r.begin + r.whole]);
    var seen := AppliedTo(tables, kept);
    if Harmless(cs, r) {
      forall k ensures Get(seen, k) == Get(prefix, k) {
        HarmlessAt(cs, r, k);
        if Get(tables, k) != Get(before, k) {
          ChangedIsWritten(cs, r, k);
          CoveredOrKept(cs, r, k);
        }
      }
      SameMap(seen, prefix);
    }
    if seen == prefix {
      forall i | r.begin + r.whole <= i < r.begin + r.covered
        ensures Written(kept, cs[i].key) || Get(tables, cs[i].key) == Get(before, cs[i].key)
      {
        HarmlessAt(cs, r, cs[i].key);
      }
    }
  }

  /**
    Exactly the surviving writes: after any run and whatever byte the log is cut at, the reopened engine reads
    as a plain map given the writes before the log and those whose records lie wholly before the cut, and no
    later one, if and only if what a half-finished flush left in the tables does no harm.
  */
  lemma CrashKeepsSurvivorsIff(t: Text, config: Config, ops: seq<Op>, halfFlushed: bool, cut: nat, config': Config)
    requires CanCrash(t, config, ops, cut, config')
    ensures var cs, r := Writes(ops), CrashOf(t, config, ops, halfFlushed, cut);
            ReadsAs(AfterCrash(t, After(config, ops), halfFlushed, cut, config'),
                    AppliedTo(map[], cs[..r.begin + r.whole]))
            <==> Harmless(cs, r)
  {
    hide After, Writes, AppliedTo, AfterCrash, Harmless, Allowed, SafeConfig, Lawful, Loggable, LogFile, Whole,
      InTables, CoverLeft, ReadsAs;
    var cs, r := Writes(ops), CrashOf(t, config, ops, halfFlushed, cut);
    HarmlessIff(cs, r);
    CrashReads(t, config, ops, halfFlushed, cut, config');
    ReadsAsOne(AfterCrash(t, After(config, ops), halfFlushed, cut, config'),
               AppliedTo(AppliedTo(map[], cs[..r.begin + r.covered]), cs[r.begin..r.begin + r.whole]),
               AppliedTo(map[], cs[..r.begin + r.whole]));
  }

  lemma ReadsAsOne(s: Store, m: map<Key, Value>, m': map<Key, Value>)
    requires ReadsAs(s, m)
    ensures ReadsAs(s, m') <==> m == m'
  {
    hide Read, Get;
    if ReadsAs(s, m') { SameMap(m, m'); }
  }

  /** A covered write is of a surviving record, or of a record behind the cut. */
  lemma CoveredOrKept(cs: seq<Command>, r: Crash, k: Key)
    requires r.begin + r.whole <= |cs| && r.begin + r.covered <= |cs| && Written(cs[r.begin..r.begin + r.covered], k)
    ensures Written(cs[r.begin..r.begin + r.whole], k)
            || exists i :: r.begin + r.whole <= i < r.begin + r.covered && cs[i].key == k
  {
    var part, kept := cs[r.begin..r.begin + r.covered], cs[r.begin..r.begin + r.whole];
    var j :| 0 <= j < |part| && part[j].key == k;
    if j < r.whole {
      assert kept[j].key == k;
    } else {
      assert cs[r.begin + j].key == k;
    }
  }

  // ---------------------------------------------------------------- is it a prefix of the writes?

  /** The plain map after the first `j` writes. */
  function Prefix(cs: seq<Command>, j: nat): map<Key, Value>
    requires j <= |cs|
  {
    AppliedTo(map[], cs[..j])
  }

  /**
    What a key reads after the crash: its value at the cut if a surviving record writes it, else its value in the
    tables.
  */
  ghost predicate Agrees(cs: seq<Command>, r: Crash, j: nat, k: Key)
    requires r.begin + r.whole <= |cs| && r.begin + r.covered <= |cs| && j <= |cs|
  {
    Get(Prefix(cs, j), k) ==
    if Written(cs[r.begin..r.begin + r.whole], k) then Get(Prefix(cs, r.begin + r.whole), k)
    else Get(Prefix(cs, r.begin + r.covered), k)
  }

  /** After `j` writes every key ever written has the value that it reads after the crash. */
  ghost predicate FitsPrefix(cs: seq<Command>, r: Crash, j: nat)
    requires r.begin + r.whole <= |cs| && r.begin + r.covered <= |cs| && j <= |cs|
  {
    forall i :: 0 <= i < |cs| ==> Agrees(cs, r, j, cs[i].key)
  }

  /** The same, asked only of the writes behind the cut. */
  ghost predicate FitsBehind(cs: seq<Command>, r: Crash, j: nat)
    requires r.begin + r.whole <= |cs| && r.begin + r.covered <= |cs| && j <= |cs|
  {
    forall i :: r.begin + r.whole <= i < |cs| ==> Agrees(cs, r, j, cs[i].key)
  }

  lemma ReadsOfKey(cs: seq<Command>, r: Crash, k: Key)
    requires r.begin + r.whole <= |cs| && r.begin + r.covered <= |cs|
    ensures Get(AppliedTo(Prefix(cs, r.begin + r.covered), cs[r.begin..r.begin + r.whole]), k) ==
            if Written(cs[r.begin..r.begin + r.whole], k) then Get(Prefix(cs, r.begin + r.whole), k)
            else Get(Prefix(cs, r.begin + r.covered), k)
  {
    hide AppliedTo, ReplayWal, Get;
    var kept, before := cs[r.begin..r.begin + r.whole], Prefix(cs, r.begin);
    AppliedConcat(map[], cs[..r.begin], kept);
    assert cs[..r.begin] + kept == cs[..r.begin + r.whole];
    AppliedGet(Prefix(cs, r.begin + r.covered), kept, k);
    AppliedGet(before, kept, k);
    ReplayHas(kept, k);
  }

  /** Between two points a key changes only by being written. */
  lemma SameBetween(cs: seq<Command>, i: nat, j: nat, k: Key)
    requires i <= j <= |cs| && !Written(cs[i..j], k)
    ensures Get(Prefix(cs, i), k) == Get(Prefix(cs, j), k)
  {
    hide AppliedTo, ReplayWal, Get;
    AppliedConcat(map[], cs[..i], cs[i..j]);
    assert cs[..i] + cs[i..j] == cs[..j];
    AppliedGet(Prefix(cs, i), cs[i..j], k);
    ReplayHas(cs[i..j], k);
  }

  lemma NeverWritten(cs: seq<Command>, i: nat, j: nat, k: Key)
    requires i <= j <= |cs| && !Written(cs, k)
    ensures !Written(cs[i..j], k)
  {
    forall m | 0 <= m < |cs[i..j]| ensures cs[i..j][m].key != k {
      assert cs[i..j][m] == cs[i + m];
    }
  }

  /** Keys that no command writes agree everywhere. */
  lemma UnwrittenAgrees(cs: seq<Command>, r: Crash, j: nat, k: Key)
    requires r.begin + r.whole <= |cs| && r.begin + r.covered <= |cs| && j <= |cs| && !Written(cs, k)
    ensures Agrees(cs, r, j, k)
  {
    hide Get, Prefix;
    NeverWritten(cs, r.begin, r.begin + r.whole, k);
    NeverWritten(cs, 0, j, k);
    NeverWritten(cs, 0, r.begin + r.covered, k);
    SameBetween(cs, 0, j, k);
    SameBetween(cs, 0, r.begin + r.covered, k);
  }

  lemma FitsIff(cs: seq<Command>, r: Crash, j: nat)
    requires r.begin + r.whole <= |cs| && r.begin + r.covered <= |cs| && j <= |cs|
    ensures AppliedTo(Prefix(cs, r.begin + r.covered), cs[r.begin..r.begin + r.whole]) == Prefix(cs, j)
            <==> FitsPrefix(cs, r, j)
  {
    hide AppliedTo, Get, Written, Prefix;
    var seen := AppliedTo(Prefix(cs, r.begin + r.covered), cs[r.begin..r.begin + r.whole]);
    if FitsPrefix(cs, r, j) {
      forall k ensures Get(seen, k) == Get(Prefix(cs, j), k) {
        ReadsOfKey(cs, r, k);
        if Written(cs, k) {
          var i := WrittenAt(cs, k);
          assert Agrees(cs, r, j, cs[i].key);
        } else {
          UnwrittenAgrees(cs, r, j, k);
        }
      }
      SameMap(seen, Prefix(cs, j));
    }
    if seen == Prefix(cs, j) {
      forall i | 0 <= i < |cs| ensures Agrees(cs, r, j, cs[i].key) {
        ReadsOfKey(cs, r, cs[i].key);
      }
    }
  }

  lemma WrittenAt(cs: seq<Command>, k: Key) returns (i: nat)
    requires Written(cs, k)
    ensures i < |cs| && cs[i].key == k
  {
    i :| 0 <= i < |cs| && cs[i].key == k;
  }

  /** A key not written behind the cut agrees with every prefix that reaches the cut. */
  lemma BeforeCutAgrees(cs: seq<Command>, r: Crash, j: nat, k: Key)
    requires r.begin + r.whole <= |cs| && r.begin + r.covered <= |cs| && r.begin + r.whole <= j <= |cs|
    requires !Written(cs[r.begin + r.whole..], k)
    ensures Agrees(cs, r, j, k)
  {
    hide Get, Prefix;
    var cut, tables := r.begin + r.whole, r.begin + r.covered;
    var kept, behind := cs[r.begin..cut], cs[cut..];
    assert cs[cut..j] == behind[..j - cut];
    NeverWritten(behind, 0, j - cut, k);
    SameBetween(cs, cut, j, k);
    if !Written(kept, k) {
      if cut <= tables {
        assert cs[cut..tables] == behind[0..tables - cut];
        NeverWritten(behind, 0, tables - cut, k);
        SameBetween(cs, cut, tables, k);
      } else {
        assert cs[tables..cut] == kept[r.covered..r.whole];
        NeverWritten(kept, r.covered, r.whole, k);
        SameBetween(cs, tables, cut, k);
      }
    }
  }

  lemma BehindIsEnough(cs: seq<Command>, r: Crash, j: nat)
    requires r.begin + r.whole <= |cs| && r.begin + r.covered <= |cs| && r.begin + r.whole <= j <= |cs|
    ensures FitsBehind(cs, r, j) <==> FitsPrefix(cs, r, j)
  {
    hide Agrees, Written;
    var cut := r.begin + r.whole;
    if FitsBehind(cs, r, j) {
      forall i | 0 <= i < |cs| ensures Agrees(cs, r, j, cs[i].key) {
        if Written(cs[cut..], cs[i].key) {
          var m := WrittenAt(cs[cut..], cs[i].key);
          assert cs[cut..][m] == cs[cut + m];
        } else {
          BeforeCutAgrees(cs, r, j, cs[i].key);
        }
      }
    }
  }

  /** Reads that match a prefix which has all of the writes before the log match one that reaches the cut. */
  lemma ReachesCut(cs: seq<Command>, r: Crash, j: nat)
    requires r.begin + r.whole <= |cs| && r.begin + r.covered <= |cs| && r.begin <= j < r.begin + r.whole
    requires FitsPrefix(cs, r, j)
    ensures FitsPrefix(cs, r, r.begin + r.whole)
  {
    hide Get, Prefix;
    var cut, kept := r.begin + r.whole, cs[r.begin..r.begin + r.whole];
    forall i | 0 <= i < |cs| ensures Agrees(cs, r, cut, cs[i].key) {
      var k := cs[i].key;
      assert Agrees(cs, r, j, k);
      if !Written(kept, k) {
        assert cs[j..cut] == kept[j - r.begin..r.whole];
        NeverWritten(kept, j - r.begin, r.whole, k);
        SameBetween(cs, j, cut, k);
      }
    }
  }

  /** Reading as the first `j` writes, for each `j`: a test of every write of the run. */
  lemma CrashIsPrefixAtIff(t: Text, config: Config, ops: seq<Op>, halfFlushed: bool, cut: nat, config': Config, j: nat)
    requires CanCrash(t, config, ops, cut, config') && j <= |Writes(ops)|
    ensures var cs, r := Writes(ops), CrashOf(t, config, ops, halfFlushed, cut);
            ReadsAs(AfterCrash(t, After(config, ops), halfFlushed, cut, config'), Prefix(cs, j)) <==>
            FitsPrefix(cs, r, j)
  {
    hide After, Writes, AppliedTo, AfterCrash, FitsPrefix, Allowed, SafeConfig, Lawful, Loggable, LogFile, Whole,
      InTables, CoverLeft, ReadsAs;
    var cs, r := Writes(ops), CrashOf(t, config, ops, halfFlushed, cut);
    FitsIff(cs, r, j);
    CrashReads(t, config, ops, halfFlushed, cut, config');
    ReadsAsOne(AfterCrash(t, After(config, ops), halfFlushed, cut, config'),
               AppliedTo(Prefix(cs, r.begin + r.covered), cs[r.begin..r.begin + r.whole]), Prefix(cs, j));
  }

  /**
    Crash consistency, exactly: after any run and whatever byte the log is cut at, the reopened engine reads as
    some prefix of the writes if and only if at some point of the run every key written in the run had the value
    that it reads now: its value at the cut if a surviving record writes it, else its value in the tables.
  */
  lemma CrashIsPrefixIff(t: Text, config: Config, ops: seq<Op>, halfFlushed: bool, cut: nat, config': Config)
    requires CanCrash(t, config, ops, cut, config')
    ensures var cs, r := Writes(ops), CrashOf(t, config, ops, halfFlushed, cut);
            var s' := AfterCrash(t, After(config, ops), halfFlushed, cut, config');
            (exists j :: 0 <= j <= |cs| && ReadsAs(s', Prefix(cs, j)))
            <==> (exists j :: 0 <= j <= |cs| && FitsPrefix(cs, r, j))
  {
    hide After, Writes, Prefix, AfterCrash, FitsPrefix, Allowed, SafeConfig, Lawful, Loggable, LogFile, Whole,
      InTables, CoverLeft, ReadsAs;
    forall j | 0 <= j <= |Writes(ops)|
      ensures var cs, r := Writes(ops), CrashOf(t, config, ops, halfFlushed, cut);
              ReadsAs(AfterCrash(t, After(config, ops), halfFlushed, cut, config'), Prefix(cs, j)) <==>
              FitsPrefix(cs, r, j)
    {
      CrashIsPrefixAtIff(t, config, ops, halfFlushed, cut, config', j);
    }
  }

  /**
    Of the prefixes that have all writes before the log, only those that reach the cut come into question, and
    only the writes behind the cut need to be looked at.
  */
  lemma CrashKeepsOrderIff(t: Text, config: Config, ops: seq<Op>, halfFlushed: bool, cut: nat, config': Config)
    requires CanCrash(t, config, ops, cut, config')
    ensures var cs, r := Writes(ops), CrashOf(t, config, ops, halfFlushed, cut);
            var s' := AfterCrash(t, After(config, ops), halfFlushed, cut, config');
            (exists j :: r.begin <= j <= |cs| && ReadsAs(s', Prefix(cs, j)))
            <==> (exists j :: r.begin + r.whole <= j <= |cs| && FitsBehind(cs, r, j))
  {
    hide After, Writes, Prefix, AfterCrash, FitsPrefix, FitsBehind, Allowed, SafeConfig, Lawful, Loggable, LogFile,
      Whole, InTables, CoverLeft, ReadsAs;
    var cs, r := Writes(ops), CrashOf(t, config, ops, halfFlushed, cut);
    var s' := AfterCrash(t, After(config, ops), halfFlushed, cut, config');
    if j :| r.begin <= j <= |cs| && ReadsAs(s', Prefix(cs, j)) {
      CrashIsPrefixAtIff(t, config, ops, halfFlushed, cut, config', j);
      if j < r.begin + r.whole {
        ReachesCut(cs, r, j);
        BehindIsEnough(cs, r, r.begin + r.whole);
      } else {
        BehindIsEnough(cs, r, j);
      }
    }
    if j :| r.begin + r.whole <= j <= |cs| && FitsBehind(cs, r, j) {
      BehindIsEnough(cs, r, j);
      CrashIsPrefixAtIff(t, config, ops, halfFlushed, cut, config', j);
    }
  }

  /** A log of which nothing survives does no harm: the tables alone are a prefix. */
  lemma TablesAloneArePrefix(t: Text, config: Config, ops: seq<Op>, halfFlushed: bool, cut: nat, config': Config)
    requires CanCrash(t, config, ops, cut, config')
    ensures var cs, r := Writes(ops), CrashOf(t, config, ops, halfFlushed, cut);
            r.whole == 0 ==>
              ReadsAs(AfterCrash(t, After(config, ops), halfFlushed, cut, config'), Prefix(cs, r.begin + r.covered))
  {
    hide After, Writes, AfterCrash, Allowed, SafeConfig, Lawful, Loggable, LogFile, Whole, InTables, CoverLeft, ReadsAs;
    CrashReads(t, config, ops, halfFlushed, cut, config');
  }

  /**
    When no flush was ever left half-finished, only the tail of the writes is lost, whatever byte the log is cut at.
  */
  lemma CrashLosesOnlyTheTail(t: Text, config: Config, ops: seq<Op>, cut: nat, config': Config)
    requires CanCrash(t, config, ops, cut, config') && CleanFlushes(ops)
    ensures var cs, r := Writes(ops), CrashOf(t, config, ops, false, cut);
            ReadsAs(AfterCrash(t, After(config, ops), false, cut, config'), AppliedTo(map[], cs[..r.begin + r.whole]))
  {
    hide After, Writes, AppliedTo, AfterCrash, Whole, Loggable, SafeConfig, Allowed, ReadsAs;
    CleanCoversNothing(config, ops);
    CrashKeepsSurvivorsIff(t, config, ops, false, cut, config');
  }

  /** With the whole log on disk nothing is lost, half-finished flush or not. */
  lemma WholeLogLosesNothing(t: Text, config: Config, ops: seq<Op>, halfFlushed: bool, config': Config)
    requires CanCrash(t, config, ops, |LogFile(t, After(config, ops).wal)|, config')
    ensures ReadsAs(AfterCrash(t, After(config, ops), halfFlushed, |LogFile(t, After(config, ops).wal)|, config'),
                    AppliedTo(map[], Writes(ops)))
  {
    hide After, Writes, AppliedTo, AfterCrash, Whole, Loggable, SafeConfig, Allowed, Scan, LogFile, TablesAre, ReadsAs;
    var cs, s := Writes(ops), After(config, ops);
    var cut := |LogFile(t, s.wal)|;
    var r := CrashOf(t, config, ops, halfFlushed, cut);
    LogIsLoggable(t, config, ops);
    CutLog(t, s.wal, cut);
    CrashKeepsSurvivorsIff(t, config, ops, halfFlushed, cut, config');
    RunDurable(config, ops);
    assert cs[..r.begin + r.whole] == cs;
  }

  // ---------------------------------------------------------------- a crash that keeps no prefix

  const A: Key := [97]
  const B: Key := [98]
  const ROOMY := Config(1, 10, 5)
  const THREE := [Do(Set(A, Int(1))), Do(Set(A, Int(2))), Do(Set(B, Int(1)))]
  const THREE_WRITES := [Set(A, Int(1)), Set(A, Int(2)), Set(B, Int(1))]

  lemma QuietWrite(s: Store, c: Command)
    requires |s.levels| < 2 && |Log(s, c).data| < s.config.dataThreshold
    ensures Write(s, c) == Log(s, c)
  {}

  lemma ThreeWrites()
    ensures Writes(THREE) == THREE_WRITES && After(ROOMY, THREE).wal == THREE_WRITES
    ensures After(ROOMY, THREE).data != map[] && |After(ROOMY, THREE).levels| == 1
  {
    hide Write;
    var s0 := Empty(ROOMY);
    var s1 := Log(s0, Set(A, Int(1)));
    var s2 := Log(s1, Set(A, Int(2)));
    var s3 := Log(s2, Set(B, Int(1)));
    assert s1.data.Keys == {A} && s2.data.Keys == {A} && s3.data.Keys == {A, B};
    assert |s1.data.Keys| == 1 && |s2.data.Keys| == 1 && |s3.data.Keys| == 2;
    QuietWrite(s0, Set(A, Int(1)));
    QuietWrite(s1, Set(A, Int(2)));
    QuietWrite(s2, Set(B, Int(1)));
    assert THREE[..2][..1][..0] == [] && THREE[..2][..1] == [THREE[0]] && THREE[..2] == [THREE[0], THREE[1]];
    assert After(ROOMY, THREE[..2][..1][..0]) == s0 && Writes(THREE[..2][..1][..0]) == [];
    assert After(ROOMY, THREE[..2][..1]) == s1 && Writes(THREE[..2][..1]) == [THREE_WRITES[0]];
    assert After(ROOMY, THREE[..2]) == s2 && Writes(THREE[..2]) == [THREE_WRITES[0], THREE_WRITES[1]];
  }

  lemma ThreeLoggable(t: Text)
    requires Lawful(t)
    ensures Loggable(t, THREE_WRITES)
  {
    FourBytesAtLeast();
    assert t.utf8(A) && t.utf8(B);
    assert Digits(1) == [49] && Digits(2) == [50];
    assert |ShowInt(1)| == 1 && |ShowInt(2)| == 1;
    hide Pow256;
  }

  lemma FourBytesAtLeast()
    ensures Pow256(4) > 1000 && Pow256(8) > 1000
  {
    assert Pow256(2) == 0x1_0000 && Pow256(4) == 0x1_0000_0000;
    assert Pow256(6) == 0x1_0000_0000_0000;
  }

  lemma OneWhole(t: Text)
    ensures var rs := Numbered(THREE_WRITES, 0);
            Whole(Writer(t), rs, |Encode(t, rs[0])|) == 1 && |Encode(t, rs[0])| <= |LogFile(t, THREE_WRITES)|
  {
    hide Encode;
    var rs := Numbered(THREE_WRITES, 0);
    EncodeSome(t, rs[1]);
    assert Writer(t)(rs[1..][0]) == Encode(t, rs[1]);
  }

  lemma EncodeSome(t: Text, r: LogRecord)
    ensures |Encode(t, r)| > 0
  {}

  lemma AppliedOne(m: map<Key, Value>, cs: seq<Command>, c: Command)
    ensures AppliedTo(m, cs + [c]) == Apply(AppliedTo(m, cs), c)
  {
    assert (cs + [c])[..|cs|] == cs;
  }

  lemma Mixture()
    ensures AppliedTo(AppliedTo(map[], THREE_WRITES), THREE_WRITES[..1]) == map[A := Int(1), B := Int(1)]
    ensures forall j :: 0 <= j <= 3 ==> AppliedTo(map[], THREE_WRITES[..j]) != map[A := Int(1), B := Int(1)]
  {
    var w := THREE_WRITES;
    assert w[..0] == [] && w[..1] == [] + [w[0]] && w[..2] == w[..1] + [w[1]] && w == w[..2] + [w[2]] && w[..3] == w;
    var all := AppliedTo(map[], w);
    AppliedOne(map[], [], w[0]);
    AppliedOne(map[], w[..1], w[1]);
    AppliedOne(map[], w[..2], w[2]);
    AppliedOne(all, [], w[0]);
    assert AppliedTo(map[], []) == map[] && AppliedTo(all, []) == all;
    hide AppliedTo;
    assert all == map[A := Int(2), B := Int(1)];
    assert B !in AppliedTo(map[], w[..0]) && B !in AppliedTo(map[], w[..1]) && B !in AppliedTo(map[], w[..2]);
    assert all[A] == Int(2);
    forall j | 0 <= j <= 3 ensures AppliedTo(map[], w[..j]) != map[A := Int(1), B := Int(1)] {
      if j == 3 { assert w[..j] == w; }
    }
  }

  /**
    A half-finished flush can leave a mixture: three writes, a flush that wrote its table, and a log cut
    behind its first record reopen to reads that no prefix of the writes gives.
  */
  lemma CrashCanMixWrites(t: Text)
    requires Lawful(t)
    ensures var s', cut := AfterCrash(t, After(ROOMY, THREE), true, CutAtOne(t), ROOMY), CutAtOne(t);
            && CanCrash(t, ROOMY, THREE, cut, ROOMY)
            && ReadsAs(s', map[A := Int(1), B := Int(1)])
            && forall j :: 0 <= j <= |Writes(THREE)| ==> !ReadsAs(s', AppliedTo(map[], Writes(THREE)[..j]))
  {
    hide After, Writes, AppliedTo, AfterCrash, Whole, Loggable, Lawful, LogFile, InTables, Encode, ReadsAs;
    var s', cut := AfterCrash(t, After(ROOMY, THREE), true, CutAtOne(t), ROOMY), CutAtOne(t);
    ThreeWrites();
    ThreeLoggable(t);
    OneWhole(t);
    Mixture();
    var r := CrashOf(t, ROOMY, THREE, true, cut);
    assert r == Crash(0, 1, 3);
    CrashReads(t, ROOMY, THREE, true, cut, ROOMY);
    assert THREE_WRITES[..3] == THREE_WRITES && THREE_WRITES[0..1] == THREE_WRITES[..1];
    forall j | 0 <= j <= |Writes(THREE)| ensures !ReadsAs(s', AppliedTo(map[], Writes(THREE)[..j])) {
      ReadsAsOne(s', map[A := Int(1), B := Int(1)], AppliedTo(map[], THREE_WRITES[..j]));
    }
  }

  /** The byte just behind the first record. */
  ghost function CutAtOne(t: Text): (cut: nat)
    ensures cut <= |LogFile(t, After(ROOMY, THREE).wal)|
  {
    ThreeWrites();
    OneWhole(t);
    |Encode(t, (0, THREE_WRITES[0]))|
  }
}
