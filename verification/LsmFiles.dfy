/** Reads through table files: what `get` finds when every table is opened and searched in its byte form. */
module TableFiles {
  import opened Commands
  import opened ByteForms
  import opened Frames
  import opened Bloom
  import opened Wal
  import opened Tables
  import opened KWayMerge
  import opened Store
  import opened StoreReads
  import opened StoreDisk
  import opened StorePass
  import opened SSTable
  import opened Engine
  import opened CrashRecovery

  // ---------------------------------------------------------------- everything stored was written

  predicate WrittenAs(cs: seq<Command>, k: Key, e: Entry) {
    exists i :: 0 <= i < |cs| && cs[i].key == k && EntryOf(cs[i]) == e
  }

  /** Every entry of the table is one that some command wrote. */
  ghost predicate Owned(rs: seq<Record>, cs: seq<Command>) {
    forall k :: Find(rs, k).Some? ==> WrittenAs(cs, k, Find(rs, k).value)
  }

  ghost predicate LevelsOwned(levels: seq<seq<Table>>, cs: seq<Command>) {
    forall m, i :: 0 <= m < |levels| && 0 <= i < |levels[m]| ==> Owned(levels[m][i].records, cs)
  }

  ghost predicate FilesOwned(files: map<nat, seq<Record>>, cs: seq<Command>) {
    forall f :: f in files ==> Owned(files[f], cs)
  }

  ghost predicate Origin(s: Store, cs: seq<Command>) { LevelsOwned(s.levels, cs) && FilesOwned(s.files, cs) }

  lemma OwnedMore(rs: seq<Record>, cs: seq<Command>, c: Command)
    requires Owned(rs, cs)
    ensures Owned(rs, cs + [c])
  {
    hide Find;
    forall k | Find(rs, k).Some? ensures WrittenAs(cs + [c], k, Find(rs, k).value) {
      var i :| 0 <= i < |cs| && cs[i].key == k && EntryOf(cs[i]) == Find(rs, k).value;
      assert (cs + [c])[i] == cs[i];
    }
  }

  lemma OriginMore(s: Store, cs: seq<Command>, c: Command)
    requires Origin(s, cs)
    ensures Origin(Log(s, c), cs + [c])
  {
    hide Owned;
    forall m, i | 0 <= m < |s.levels| && 0 <= i < |s.levels[m]| ensures Owned(s.levels[m][i].records, cs + [c]) {
      OwnedMore(s.levels[m][i].records, cs, c);
    }
    forall f | f in s.files ensures Owned(s.files[f], cs + [c]) {
      OwnedMore(s.files[f], cs, c);
    }
  }

  lemma {:induction false} ReplayWritten(wal: seq<Command>, k: Key)
    requires k in ReplayWal(wal)
    ensures WrittenAs(wal, k, ReplayWal(wal)[k])
  {
    var front, c := wal[..|wal| - 1], wal[|wal| - 1];
    if c.key != k {
      ReplayWritten(front, k);
      var i :| 0 <= i < |front| && front[i].key == k && EntryOf(front[i]) == ReplayWal(wal)[k];
      assert wal[i] == front[i];
    }
  }

  /** The log is the end of all writes. */
  predicate LogEnds(s: Store, cs: seq<Command>) { |s.wal| <= |cs| && s.wal == cs[|cs| - |s.wal|..] }

  lemma ListingOwned(s: Store, cs: seq<Command>)
    requires Wf(s) && LogEnds(s, cs)
    ensures Owned(Listing(s.data), cs)
  {
    hide Find, ReplayWal, AllSorted;
    forall k | Find(Listing(s.data), k).Some? ensures WrittenAs(cs, k, Find(Listing(s.data), k).value) {
      assert Find(Listing(s.data), k) == Tables.Lookup(s.data, k);
      ReplayWritten(s.wal, k);
      var i :| 0 <= i < |s.wal| && s.wal[i].key == k && EntryOf(s.wal[i]) == s.data[k];
      assert cs[|cs| - |s.wal| + i] == s.wal[i];
    }
  }

  lemma FlushOrigin(s: Store, cs: seq<Command>)
    requires Wf(s) && LogEnds(s, cs) && Origin(s, cs)
    ensures Origin(Flush(s), cs)
  {
    ListingOwned(s, cs);
    hide Owned, Listing;
  }

  lemma MergedOwned(cur: seq<Table>, next: seq<Table>, id: nat, cs: seq<Command>)
    requires AllSorted(cur) && AllSorted(next)
    requires forall i :: 0 <= i < |cur| ==> Owned(cur[i].records, cs)
    requires forall i :: 0 <= i < |next| ==> Owned(next[i].records, cs)
    ensures Owned(Merged(cur, next, id).records, cs)
  {
    hide Find, MergeAll, WrittenAs, Sorted;
    var all, inputs := cur + next, Ranked(cur + next, |cur|);
    RankedSorted(all, |cur|);
    forall k | Find(MergeAll(inputs), k).Some? ensures WrittenAs(cs, k, Find(MergeAll(inputs), k).value) {
      MergeAllCorrect(inputs, k);
      var p := SearchWitness(inputs, k);
      var j := if p < |cur| then |cur| - 1 - p else |all| - 1 - (p - |cur|);
      assert Rank(j, |cur|, |all|) == p && inputs[p] == all[j];
    }
  }

  lemma CompactOrigin(s: Store, i: nat, kept: set<nat>, cs: seq<Command>)
    requires Wf(s) && Origin(s, cs)
    ensures Origin(CompactLevel(s, i, kept), cs)
  {
    hide Owned, Merged, ReplayWal, Sorted;
    CompactShape(s, i, kept);
    if i + 1 < |s.levels| && s.levels[i] != [] {
      MergedOwned(s.levels[i], s.levels[i + 1], s.nextId, cs);
      MergedId(s, i);
    }
  }

  lemma {:induction false} PassOrigin(s: Store, flags: seq<bool>, n: nat, kept: set<nat>, cs: seq<Command>)
    requires Wf(s) && Origin(s, cs) && n <= |flags|
    ensures Origin(Pass(s, flags, n, kept), cs)
  {
    hide Wf, Origin, CompactLevel;
    if n > 0 {
      PassOrigin(s, flags, n - 1, kept, cs);
      PassReads(s, flags, n - 1, kept, []);
      CompactOrigin(Pass(s, flags, n - 1, kept), n - 1, kept, cs);
    }
  }

  lemma WriteOrigin(s: Store, c: Command, n: nat, kept: set<nat>, cs: seq<Command>)
    requires Wf(s) && Origin(s, cs) && LogEnds(s, cs)
    ensures Origin(Write(s, c), cs + [c]) && Origin(CutShort(s, c, n, kept), cs + [c])
  {
    hide Wf, Origin, Flags, Flush, Pass;
    LogReads(s, c, []);
    OriginMore(s, cs, c);
    assert LogEnds(Log(s, c), cs + [c]);
    FlushReads(Log(s, c), []);
    FlushOrigin(Log(s, c), cs + [c]);
    var s' := MaybeFlush(Log(s, c));
    PassOrigin(s', Flags(s'), |Flags(s')|, {}, cs + [c]);
    PassOrigin(s', Flags(s'), if n <= |Flags(s')| then n else |Flags(s')|, kept, cs + [c]);
  }

  lemma ReopenOrigin(s: Store, config: Config, halfFlushed: bool, cs: seq<Command>)
    requires Wf(s) && Origin(s, cs) && LogEnds(s, cs)
    ensures Origin(Reopen(s, config, halfFlushed), cs)
  {
    ListingOwned(s, cs);
    hide Owned, Listing, ReplayWal, AllSorted;
    var files := FilesLeft(s, halfFlushed);
    var ids := IdsOf(files);
    assert FilesOwned(files, cs);
    forall i | 0 <= i < |ids| ensures Owned(FromFiles(files, ids)[i].records, cs) {
      assert ids[i] in ids;
    }
  }

  /** After every run, every entry in memory or on disk was written by one of the run's commands. */
  lemma {:induction false} RunOrigin(config: Config, ops: seq<Op>)
    requires Allowed(config, ops)
    ensures Origin(After(config, ops), Writes(ops)) && LogEnds(After(config, ops), Writes(ops))
  {
    hide Origin, Wf, Write, CutShort, Reopen, SafeConfig, TablesAre, InTables, DiskOk;
    RunDurable(config, ops);
    if |ops| == 0 {
      EmptyOrigin(config);
    } else {
      var before, op := ops[..|ops| - 1], ops[|ops| - 1];
      assert ops == before + [op];
      RunOrigin(config, before);
      RunKeeps(config, before, []);
      var s := After(config, before);
      if op.Restart? {
        ReopenOrigin(s, op.config, op.halfFlushed, Writes(before));
        assert Writes(before) + [] == Writes(before);
      } else {
        var (n, kept) := if op.Do? then (0, {}) else (op.levels, op.kept);
        WriteOrigin(s, op.c, n, kept, Writes(before));
      }
    }
  }

  lemma EmptyOrigin(config: Config)
    ensures Origin(Empty(config), [])
  {}

  // ---------------------------------------------------------------- sizes

  /** The bytes a command can cost in a table: its record and its index entry. */
  function Weight(t: Text, cs: seq<Command>): nat {
    if |cs| == 0 then 0
    else Weight(t, cs[..|cs| - 1]) + 22 + 2 * |cs[|cs| - 1].key| + |Payload(t, cs[|cs| - 1])|
  }

  lemma {:induction false} WeightConcat(t: Text, a: seq<Command>, b: seq<Command>)
    ensures Weight(t, a + b) == Weight(t, a) + Weight(t, b)
  {
    hide Payload;
    if |b| == 0 {
      assert a + b == a;
    } else {
      assert (a + b)[..|a + b| - 1] == a + b[..|b| - 1];
      WeightConcat(t, a, b[..|b| - 1]);
    }
  }

  lemma WeightWithout(t: Text, cs: seq<Command>, i: nat)
    requires i < |cs|
    ensures Weight(t, cs) == Weight(t, cs[..i] + cs[i + 1..]) + 22 + 2 * |cs[i].key| + |Payload(t, cs[i])|
  {
    hide Payload;
    assert cs == cs[..i] + ([cs[i]] + cs[i + 1..]);
    WeightConcat(t, cs[..i], [cs[i]] + cs[i + 1..]);
    WeightConcat(t, [cs[i]], cs[i + 1..]);
    WeightConcat(t, cs[..i], cs[i + 1..]);
    assert [cs[i]][..0] == [];
    assert Weight(t, [cs[i]]) == Weight(t, []) + 22 + 2 * |cs[i].key| + |Payload(t, cs[i])|;
  }

  function RecordsWeight(t: Text, rs: seq<Record>): nat {
    if |rs| == 0 then 0
    else RecordsWeight(t, rs[..|rs| - 1]) + 22 + 2 * |rs[|rs| - 1].key| + |EntryBytes(t, rs[|rs| - 1].entry)|
  }

  ghost predicate EachWritten(rs: seq<Record>, cs: seq<Command>) {
    forall i :: 0 <= i < |rs| ==> WrittenAs(cs, rs[i].key, rs[i].entry)
  }

  /** Records with different keys cost no more than the commands that wrote them. */
  lemma {:induction false} RecordsCost(t: Text, rs: seq<Record>, cs: seq<Command>)
    requires Sorted(rs) && EachWritten(rs, cs)
    ensures RecordsWeight(t, rs) <= Weight(t, cs) && |rs| <= |cs|
    decreases |rs|
  {
    hide Less, Weight, Payload, EntryBytes;
    if |rs| > 0 {
      var front, r := rs[..|rs| - 1], rs[|rs| - 1];
      assert WrittenAs(cs, r.key, r.entry);
      var i :| 0 <= i < |cs| && cs[i].key == r.key && EntryOf(cs[i]) == r.entry;
      var rest := cs[..i] + cs[i + 1..];
      forall j | 0 <= j < |front| ensures WrittenAs(rest, front[j].key, front[j].entry) {
        LessIrreflexive(r.key);
        assert Less(rs[j].key, r.key) && WrittenAs(cs, rs[j].key, rs[j].entry);
        var m :| 0 <= m < |cs| && cs[m].key == rs[j].key && EntryOf(cs[m]) == rs[j].entry;
        assert rest[if m < i then m else m - 1] == cs[m];
      }
      RecordsCost(t, front, rest);
      WeightWithout(t, cs, i);
      SameBytes(t, cs[i]);
    }
  }

  lemma SameBytes(t: Text, c: Command)
    ensures EntryBytes(t, EntryOf(c)) == Payload(t, c)
  {}

  lemma {:induction false} FileSize(t: Text, rs: seq<Record>)
    ensures |Encoded(RecordWriter(t), rs)| + |Encoded(IndexWriter(), IndexOf(t, rs))| == RecordsWeight(t, rs)
  {
    hide Le, EntryBytes, Encoded;
    if |rs| == 0 {
      assert IndexOf(t, rs) == [];
      NothingEncoded(RecordWriter(t));
      NothingEncoded(IndexWriter());
    } else {
      var front, r := rs[..|rs| - 1], rs[|rs| - 1];
      var e := IndexEntry(r.key, TABLE_HEADER + |Encoded(RecordWriter(t), front)|);
      FileSize(t, front);
      assert rs == front + [r];
      assert forall i :: 0 <= i < |front| ==> rs[..i] == front[..i];
      assert IndexOf(t, rs) == IndexOf(t, front) + [e];
      EncodedSnoc(RecordWriter(t), front, r);
      EncodedSnoc(IndexWriter(), IndexOf(t, front), e);
    }
  }

  lemma NothingEncoded<T>(encode: T -> Bytes)
    ensures Encoded(encode, []) == []
  {}

  /** Filter dimensions a table can be built with when the run's commands are `cs`. */
  ghost predicate Usable(g: Setting, t: Text, cs: seq<Command>) {
    && g.text == t && g.numBits > 0 && 1 <= g.numHashes <= 100 && g.numBits < Pow256(8)
    && TABLE_HEADER + HEADER_SIZE + (g.numBits + 7) / 8 + Weight(t, cs) < Pow256(8)
  }

  /** A sorted table of written entries can be stored. */
  lemma OwnedIsStorable(g: Setting, t: Text, rs: seq<Record>, cs: seq<Command>)
    requires Lawful(t) && Loggable(t, cs) && Usable(g, t, cs) && Sorted(rs) && Owned(rs, cs)
    ensures Storable(g, rs)
  {
    hide Lawful, Find, Pow256, Weight, RecordsWeight, Encoded, InsertAll, Le, Less;
    forall i | 0 <= i < |rs| ensures WrittenAs(cs, rs[i].key, rs[i].entry) && Writable(t, rs[i]) {
      FindAt(rs, i);
      assert WrittenAs(cs, rs[i].key, rs[i].entry);
      var j :| 0 <= j < |cs| && cs[j].key == rs[i].key && EntryOf(cs[j]) == rs[i].entry;
      SameBytes(t, cs[j]);
      assert ValidCommand(t, cs[j]);
    }
    RecordsCost(t, rs, cs);
    FileSize(t, rs);
  }

  // ---------------------------------------------------------------- searching the files

  /** Search table files newest first; the first one that has the key answers. */
  function SearchFiles(gs: seq<Setting>, files: seq<Bytes>, k: Key): SSTable.Lookup
    requires |gs| == |files|
  {
    if |files| == 0 then Missing
    else
      var o := OpenTable(gs[0].text, files[0]);
      if o.None? then Failed
      else
        var r := ReadEntry(gs[0], files[0], o.value, k);
        if r.Missing? then SearchFiles(gs[1..], files[1..], k) else r
  }

  ghost predicate AllStorable(gs: seq<Setting>, order: seq<Table>) {
    |gs| == |order| && forall i :: 0 <= i < |order| ==> Storable(gs[i], order[i].records)
  }

  /** The bytes of every table, each with the filter dimensions it was built with. */
  ghost function Files(gs: seq<Setting>, order: seq<Table>): (files: seq<Bytes>)
    requires AllStorable(gs, order)
    ensures |files| == |order|
  {
    seq(|order|, i requires 0 <= i < |order| && Storable(gs[i], order[i].records) => FileOf(gs[i], order[i].records))
  }

  function Answer(e: Option<Entry>): SSTable.Lookup {
    match e
    case Some(entry) => SSTable.Found(entry)
    case None => Missing
  }

  /** Searching the files gives what searching the record lists gives. */
  lemma {:induction false} FilesAnswer(gs: seq<Setting>, order: seq<Table>, k: Key)
    requires AllStorable(gs, order)
    ensures SearchFiles(gs, Files(gs, order), k) == Answer(Search(order, k))
    decreases |order|
  {
    hide Storable, OpenTable, ReadEntry, FileOf, Find;
    if |order| > 0 {
      TableLookup(gs[0], order[0].records, k);
      FilesAnswer(gs[1..], order[1..], k);
      assert Files(gs, order)[1..] == Files(gs[1..], order[1..]);
    }
  }

  /** The dimensions of every table, chosen by its id. */
  function Dims(dims: nat -> Setting, order: seq<Table>): (gs: seq<Setting>)
    ensures |gs| == |order|
  {
    seq(|order|, i requires 0 <= i < |order| => dims(order[i].id))
  }

  lemma {:induction false} FromLevels(levels: seq<seq<Table>>, i: nat) returns (m: nat, j: nat)
    requires i < |Order(levels)|
    ensures m < |levels| && j < |levels[m]| && Order(levels)[i] == levels[m][j]
  {
    var first := Reverse(levels[0]);
    if i < |first| {
      m, j := 0, |first| - 1 - i;
    } else {
      var m', j' := FromLevels(levels[1..], i - |first|);
      m, j := m' + 1, j';
    }
  }

  lemma RunStorable(dims: nat -> Setting, t: Text, config: Config, ops: seq<Op>)
    requires Allowed(config, ops) && Lawful(t) && Loggable(t, Writes(ops))
             && forall id :: Usable(dims(id), t, Writes(ops))
    ensures var order := Order(After(config, ops).levels); AllStorable(Dims(dims, order), order)
  {
    hide Allowed, After, Writes, Lawful, Loggable, Usable, Storable, Order, Owned, FilesOwned, ReplayWal, Sorted;
    var s, cs := After(config, ops), Writes(ops);
    var order := Order(s.levels);
    RunOrigin(config, ops);
    RunKeeps(config, ops, []);
    forall i | 0 <= i < |order| ensures Storable(dims(order[i].id), order[i].records) {
      var m, j := FromLevels(s.levels, i);
      OwnedIsStorable(dims(order[i].id), t, order[i].records, cs);
    }
  }

  /**
    After any run whose commands fit, the memtable and then the table files, opened and read byte for byte,
    read as the plain map does. The conditions are on the commands alone.
  */
  lemma ReadThroughFiles(dims: nat -> Setting, t: Text, config: Config, ops: seq<Op>, k: Key)
    requires Allowed(config, ops) && Lawful(t) && Loggable(t, Writes(ops))
             && forall id :: Usable(dims(id), t, Writes(ops))
    ensures var s := After(config, ops);
            var gs := Dims(dims, Order(s.levels));
            && AllStorable(gs, Order(s.levels))
            && var r := if k in s.data then SSTable.Found(s.data[k])
                        else SearchFiles(gs, Files(gs, Order(s.levels)), k);
               && !r.Failed?
               && (if r.Found? && r.entry.Put? then Some(r.entry.value) else None) == Get(Plain(ops), k)
  {
    hide Allowed, AllStorable, After, Plain, SearchFiles, Files, Search, Order, Writes, Lawful, Loggable, Usable, Dims;
    RunStorable(dims, t, config, ops);
    EngineRefinesMap(config, ops, k);
    FilesAnswer(Dims(dims, Order(After(config, ops).levels)), Order(After(config, ops).levels), k);
  }
}
