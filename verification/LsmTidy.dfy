/** What the engine leaves behind: which table files exist, and how full the memtable and the levels may be. */
module StoreTidy {
  import opened Commands
  import opened Tables
  import opened KWayMerge
  import opened Store
  import opened StoreReads
  import opened StoreDisk
  import opened StorePass
  import opened Engine

  // ---------------------------------------------------------------- files and tables

  /** No two live tables share an id. */
  predicate Distinct(order: seq<Table>) { forall a, b :: 0 <= a < b < |order| ==> order[a].id != order[b].id }

  /** Every live table has its own file, and the next id is new. */
  predicate Filed(order: seq<Table>, files: map<nat, seq<Record>>, nextId: nat) {
    Distinct(order) && FilesMatch(order, files) && forall f :: f in files ==> f < nextId
  }

  /** Every file is a live table's. */
  predicate NoLeftover(order: seq<Table>, files: map<nat, seq<Record>>) {
    forall f :: f in files ==> f in Ids(order)
  }

  lemma FiledExactly(s: Store)
    requires FilesMatch(Order(s.levels), s.files) && NoLeftover(Order(s.levels), s.files)
    ensures s.files.Keys == Ids(Order(s.levels))
  {
    hide Order;
  }

  lemma FlushFiled(s: Store)
    requires |s.levels| > 0 && Filed(Order(s.levels), s.files, s.nextId)
    ensures var s' := Flush(s);
            && Filed(Order(s'.levels), s'.files, s'.nextId) && |s'.levels| == |s.levels| && s'.config == s.config
            && (NoLeftover(Order(s.levels), s.files) ==> NoLeftover(Order(s'.levels), s'.files))
  {
    hide Order, Sorted, Find;
    if s.data != map[] {
      var t := Table(s.nextId, Listing(s.data));
      FlushedLevels(s.levels, t);
      OneMore(Order(s.levels), s.files, s.nextId, t);
    }
  }

  lemma OneMore(order: seq<Table>, files: map<nat, seq<Record>>, nextId: nat, t: Table)
    requires Filed(order, files, nextId) && t.id == nextId
    ensures Filed([t] + order, files[t.id := t.records], nextId + 1)
    ensures NoLeftover(order, files) ==> NoLeftover([t] + order, files[t.id := t.records])
  {
    var order' := [t] + order;
    assert t in order' && forall x :: x in order ==> x in order';
    assert forall i :: 0 <= i < |order| ==> order[i] in order;
  }

  lemma PartsDistinct(front: seq<Table>, inputs: seq<Table>, back: seq<Table>, x: Table, y: Table)
    requires Distinct(front + inputs + back) && x in inputs && y in front + back
    ensures x.id != y.id
  {
    var all := front + inputs + back;
    var a := |front| + Where(inputs, x);
    var b := if y in front then Where(front, y) else |front| + |inputs| + Where(back, y);
    assert all[a] == x && all[b] == y;
  }

  /** One table takes the place of several, whose files go, but for those in `kept`. */
  lemma Replaced(front: seq<Table>, inputs: seq<Table>, back: seq<Table>, t: Table, files: map<nat, seq<Record>>,
                 kept: set<nat>)
    requires Filed(front + inputs + back, files, t.id)
    ensures var files' := files[t.id := t.records] - (Ids(inputs) - kept);
            && Filed(front + [t] + back, files', t.id + 1)
            && (NoLeftover(front + inputs + back, files) && kept == {} ==> NoLeftover(front + [t] + back, files'))
            && (forall x :: x in inputs && x.id !in kept ==> x.id !in files')
  {
    var before, after := front + inputs + back, front + [t] + back;
    var files' := files[t.id := t.records] - (Ids(inputs) - kept);
    assert forall x :: x in inputs || x in front || x in back <==> x in before;
    assert t.id !in files;
    ReplacedDistinct(front, inputs, back, t);
    forall x | x in after ensures x.id in files' && files'[x.id] == x.records {
      if x in front + back {
        NotAnInput(front, inputs, back, x);
      }
    }
    forall f | f in files' && NoLeftover(before, files) && kept == {} ensures f in Ids(after) {
      if f != t.id {
        assert f in Ids(before);
        var x :| x in before && x.id == f;
        assert x in after;
      } else {
        assert t in after;
      }
    }
  }

  lemma NotAnInput(front: seq<Table>, inputs: seq<Table>, back: seq<Table>, y: Table)
    requires Distinct(front + inputs + back) && y in front + back
    ensures y.id !in Ids(inputs)
  {
    forall x | x in inputs ensures x.id != y.id {
      PartsDistinct(front, inputs, back, x, y);
    }
  }

  lemma ReplacedDistinct(front: seq<Table>, inputs: seq<Table>, back: seq<Table>, t: Table)
    requires Distinct(front + inputs + back) && forall x :: x in front + inputs + back ==> x.id < t.id
    ensures Distinct(front + [t] + back)
  {
    var before, after := front + inputs + back, front + [t] + back;
    forall a, b | 0 <= a < b < |after| ensures after[a].id != after[b].id {
      var a', b' := Moved(|front|, |inputs|, a), Moved(|front|, |inputs|, b);
      assert a != |front| ==> after[a] == before[a'] && before[a'] in before;
      assert b != |front| ==> after[b] == before[b'] && before[b'] in before;
    }
  }

  /** Where the table at position `a` behind the replacement stood before it. */
  function Moved(front: nat, inputs: nat, a: nat): nat {
    if a <= front then a else a - 1 + inputs
  }

  lemma CompactFiled(s: Store, i: nat, kept: set<nat>)
    requires Filed(Order(s.levels), s.files, s.nextId)
    ensures var s' := CompactLevel(s, i, kept);
            && Filed(Order(s'.levels), s'.files, s'.nextId) && |s'.levels| == |s.levels| && s'.config == s.config
            && (NoLeftover(Order(s.levels), s.files) && kept == {} ==> NoLeftover(Order(s'.levels), s'.files))
  {
    hide Order, Ranked, MergeAll, Filed, NoLeftover, Ids;
    if i + 1 < |s.levels| && s.levels[i] != [] {
      var cur, next := s.levels[i], s.levels[i + 1];
      CompactOrder(s, i, kept);
      SameIds(cur, next);
      Replaced(Order(s.levels[..i]), Ranked(cur + next, |cur|), Order(s.levels[i + 2..]), Merged(cur, next, s.nextId),
               s.files, kept);
    }
  }

  /** After a compaction that takes place, the files of all tables it merged are gone, but for those left behind. */
  lemma CompactDeletesInputs(s: Store, i: nat, kept: set<nat>, t: Table)
    requires Filed(Order(s.levels), s.files, s.nextId) && i + 1 < |s.levels| && s.levels[i] != []
    requires t in s.levels[i] + s.levels[i + 1] && t.id !in kept
    ensures t.id !in CompactLevel(s, i, kept).files
  {
    hide Order, Ranked, MergeAll, Filed, NoLeftover;
    var cur, next := s.levels[i], s.levels[i + 1];
    CompactOrder(s, i, kept);
    SameIds(cur, next);
    assert t.id in Ids(Ranked(cur + next, |cur|));
    var x :| x in Ranked(cur + next, |cur|) && x.id == t.id;
    Replaced(Order(s.levels[..i]), Ranked(cur + next, |cur|), Order(s.levels[i + 2..]), Merged(cur, next, s.nextId),
             s.files, kept);
  }

  lemma {:induction false} PassFiled(s: Store, flags: seq<bool>, n: nat, kept: set<nat>)
    requires Filed(Order(s.levels), s.files, s.nextId) && n <= |flags|
    ensures var s' := Pass(s, flags, n, kept);
            && Filed(Order(s'.levels), s'.files, s'.nextId) && |s'.levels| == |s.levels| && s'.config == s.config
            && (NoLeftover(Order(s.levels), s.files) && kept == {} ==> NoLeftover(Order(s'.levels), s'.files))
  {
    hide Order, Filed, NoLeftover, CompactLevel;
    if n > 0 {
      PassFiled(s, flags, n - 1, kept);
      CompactFiled(Pass(s, flags, n - 1, kept), n - 1, kept);
    }
  }

  lemma WriteFiled(s: Store, c: Command, n: nat, kept: set<nat>)
    requires |s.levels| > 0 && Filed(Order(s.levels), s.files, s.nextId)
    ensures var s' := CutShort(s, c, n, kept);
            Filed(Order(s'.levels), s'.files, s'.nextId) && |s'.levels| > 0
    ensures var s' := Write(s, c);
            && Filed(Order(s'.levels), s'.files, s'.nextId) && |s'.levels| > 0
            && (NoLeftover(Order(s.levels), s.files) ==> NoLeftover(Order(s'.levels), s'.files))
  {
    hide Order, Filed, NoLeftover, Flush, Pass, Flags;
    var s1 := Log(s, c);
    FlushFiled(s1);
    var s2 := MaybeFlush(s1);
    PassFiled(s2, Flags(s2), |Flags(s2)|, {});
    PassFiled(s2, Flags(s2), if n <= |Flags(s2)| then n else |Flags(s2)|, kept);
  }

  lemma ReopenFiled(s: Store, config: Config, halfFlushed: bool)
    requires config.levels > 0
    ensures var s' := Reopen(s, config, halfFlushed);
            && Filed(Order(s'.levels), s'.files, s'.nextId) && |s'.levels| > 0 && NoLeftover(Order(s'.levels), s'.files)
  {
    hide Order, IdsOf, ReplayWal, FromFiles, Enumerates;
    var files := FilesLeft(s, halfFlushed);
    var ids := IdsOf(files);
    LoadedOrder(files, ids, s.wal, config);
    var s', order := Reopen(s, config, halfFlushed), Order(Reopen(s, config, halfFlushed).levels);
    forall f | f in files ensures f in Ids(order) && f < s'.nextId {
      assert Table(f, files[f]) in order;
      BelowLast(files, ids, f);
    }
  }

  lemma BelowLast(files: map<nat, seq<Record>>, ids: seq<nat>, f: nat)
    requires Enumerates(ids, files.Keys) && f in files
    ensures |ids| > 0 && f <= ids[|ids| - 1]
  {
    var i := Where(ids, f);
    assert i < |ids| - 1 ==> ids[i] < ids[|ids| - 1];
  }

  // ---------------------------------------------------------------- over runs

  /** No compaction was interrupted since the last restart. */
  predicate Undisturbed(ops: seq<Op>) {
    |ops| == 0 || ops[|ops| - 1].Restart? || (ops[|ops| - 1].Do? && Undisturbed(ops[..|ops| - 1]))
  }

  lemma {:induction false} RunFiled(config: Config, ops: seq<Op>)
    requires config.levels > 0 && forall op :: op in ops && op.Restart? ==> op.config.levels > 0
    ensures var s := After(config, ops);
            && |s.levels| > 0 && Filed(Order(s.levels), s.files, s.nextId)
            && (Undisturbed(ops) ==> NoLeftover(Order(s.levels), s.files))
  {
    hide Order, Filed, NoLeftover, Write, CutShort, Reopen, Empty;
    if |ops| == 0 {
      EmptyFiled(config);
    } else {
      var before, op := ops[..|ops| - 1], ops[|ops| - 1];
      assert ops == before + [op];
      RunFiled(config, before);
      var s := After(config, before);
      match op {
        case Do(c) => WriteFiled(s, c, 0, {});
        case Interrupted(c, n, kept) => WriteFiled(s, c, n, kept);
        case Restart(config', half) => ReopenFiled(s, config', half);
      }
    }
  }

  lemma EmptyFiled(config: Config)
    requires config.levels > 0
    ensures var s := Empty(config);
            && |s.levels| > 0 && Filed(Order(s.levels), s.files, s.nextId) && NoLeftover(Order(s.levels), s.files)
  {
    NoTables(config.levels);
  }

  /**
    No file is ever leaked: in every configuration with levels, after any run in which no compaction was interrupted
    since the last restart, the table files on disk are exactly those of the tables in the levels.
  */
  lemma FilesAreTables(config: Config, ops: seq<Op>)
    requires config.levels > 0 && forall op :: op in ops && op.Restart? ==> op.config.levels > 0
    requires Undisturbed(ops)
    ensures var s := After(config, ops); s.files.Keys == Ids(Order(s.levels))
  {
    hide Order, After, Undisturbed, NoLeftover, Distinct;
    RunFiled(config, ops);
    FiledExactly(After(config, ops));
  }

  // ---------------------------------------------------------------- how full things get

  predicate Full(s: Store, m: nat) {
    m + 1 < |s.levels| && |s.levels[m]| >= s.config.tableThreshold
  }

  /**
    What the first `n` levels' turns of a pass leave in level m: nothing if it was full, one table if the level above
    it was full and not empty, and otherwise what was there.
  */
  predicate LevelAfter(s: Store, m: nat, n: nat, level: seq<Table>)
    requires m < |s.levels|
  {
    if m < n && Full(s, m) then level == []
    else if 0 < m <= n && Full(s, m - 1) then
      (s.levels[m - 1] != [] ==> |level| == 1) && (s.levels[m] != [] ==> level != [])
    else level == s.levels[m]
  }

  predicate Turned(s: Store, s': Store, n: nat) {
    && |s'.levels| == |s.levels| && s'.config == s.config && s'.data == s.data && s'.wal == s.wal
    && forall m :: 0 <= m < |s.levels| ==> LevelAfter(s, m, n, s'.levels[m])
  }

  lemma TurnNext(s: Store, s1: Store, s2: Store, n: nat, m: nat)
    requires 0 < n < |s.levels| && m < |s.levels| && Turned(s, s1, n - 1)
    requires s2 == if Full(s, n - 1) then CompactLevel(s1, n - 1, {}) else s1
    ensures |s2.levels| == |s.levels| && LevelAfter(s, m, n, s2.levels[m])
  {
    hide Merged;
    CompactShape(s1, n - 1, {});
    assert LevelAfter(s, n - 1, n - 1, s1.levels[n - 1]) && LevelAfter(s, n, n - 1, s1.levels[n]);
    assert LevelAfter(s, m, n - 1, s1.levels[m]);
  }

  lemma {:induction false} PassTurns(s: Store, n: nat)
    requires n <= |Flags(s)|
    ensures Turned(s, Pass(s, Flags(s), n, {}), n)
  {
    hide Merged, LevelAfter, CompactLevel;
    if n == 0 {
      NoTurn(s);
    } else {
      PassTurns(s, n - 1);
      var s1, s2 := Pass(s, Flags(s), n - 1, {}), Pass(s, Flags(s), n, {});
      FlagsAre(s);
      TurnNext(s, s1, s2, n, 0);
      forall m | 0 <= m < |s.levels| ensures |s2.levels| == |s.levels| && LevelAfter(s, m, n, s2.levels[m]) {
        TurnNext(s, s1, s2, n, m);
      }
      CompactFrame(s1, n - 1);
    }
  }

  lemma NoTurn(s: Store)
    ensures Turned(s, s, 0)
  {}

  lemma CompactFrame(s: Store, i: nat)
    ensures var s' := CompactLevel(s, i, {}); s'.config == s.config && s'.data == s.data && s'.wal == s.wal
  {
    hide Merged, Publish;
  }

  /** A pass compacts every level that is full when it begins, and no other. */
  lemma PassEmptiesFull(s: Store, m: nat)
    requires m < |s.levels|
    ensures var s' := MaybeCompact(s);
            && |s'.levels| == |s.levels| && s'.data == s.data && s'.wal == s.wal
            && (Full(s, m) ==> s'.levels[m] == [])
            && (!Full(s, m) && m > 0 && Full(s, m - 1) && s.levels[m - 1] != [] ==> |s'.levels[m]| == 1)
            && (!Full(s, m) && !(m > 0 && Full(s, m - 1)) ==> s'.levels[m] == s.levels[m])
  {
    hide Pass;
    PassTurns(s, |Flags(s)|);
    assert |s.levels| >= 2 ==> |Flags(s)| == |s.levels| - 1;
    assert LevelAfter(s, m, |Flags(s)|, MaybeCompact(s).levels[m]);
  }

  /** A flush happens exactly when the memtable has reached its threshold, and puts one more table in level 0. */
  lemma FlushWhenFull(s: Store, c: Command)
    requires |s.levels| > 0
    ensures var s1, s' := Log(s, c), MaybeFlush(Log(s, c));
            && (|s1.data| >= s.config.dataThreshold ==>
                  && s'.data == map[] && s'.wal == [] && |s'.levels[0]| == |s.levels[0]| + 1
                  && s'.levels[0][..|s.levels[0]|] == s.levels[0])
            && (|s1.data| < s.config.dataThreshold ==>
                  s'.data == s1.data && s'.wal == s.wal + [c] && s'.levels == s.levels)
  {
    hide Listing;
    assert c.key in Log(s, c).data;
  }

  /**
    What a write leaves: a memtable below its threshold, or empty; and, with two levels or more, a first level below
    its threshold, or empty.
  */
  lemma WriteLeavesRoom(s: Store, c: Command)
    requires |s.levels| > 0
    ensures var s' := Write(s, c);
            && (s'.data == map[] || |s'.data| < s.config.dataThreshold)
            && |s'.levels| == |s.levels|
            && (|s.levels| >= 2 ==> s'.levels[0] == [] || |s'.levels[0]| < s.config.tableThreshold)
  {
    hide Flush, MaybeCompact, Log;
    FlushWhenFull(s, c);
    var s1 := MaybeFlush(Log(s, c));
    FlushFrame(Log(s, c));
    LogFrame(s, c);
    PassEmptiesFull(s1, 0);
  }

  lemma LogFrame(s: Store, c: Command)
    ensures Log(s, c).levels == s.levels && Log(s, c).config == s.config
  {}
}
