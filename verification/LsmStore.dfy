/** What each operation of the storage engine computes, as a function of its state. */
module Store {
  import opened Commands
  import opened Tables
  import opened KWayMerge

  datatype Config = Config(levels: nat, dataThreshold: nat, tableThreshold: nat)

  /**
    The engine in memory (`data`, `levels`, `nextId`) and on disk (`wal`, `files` by table id).
    Level 0 holds its tables oldest first.
  */
  datatype Store = Store(
    config: Config,
    data: map<Key, Entry>,
    wal: seq<Command>,
    levels: seq<seq<Table>>,
    nextId: nat,
    files: map<nat, seq<Record>>)

  function Empty(config: Config): Store {
    Store(config, map[], [], seq(config.levels, _ => []), 0, map[])
  }

  // ---------------------------------------------------------------- reads

  /** All tables in the order a read searches them. */
  function Order(levels: seq<seq<Table>>): seq<Table> {
    if |levels| == 0 then [] else Reverse(levels[0]) + Order(levels[1..])
  }

  function Latest(s: Store, k: Key): Option<Entry> {
    if k in s.data then Some(s.data[k]) else Search(Order(s.levels), k)
  }

  function ValueOf(e: Option<Entry>): Option<Value> {
    if e.Some? && e.value.Put? then Some(e.value.value) else None
  }

  /** What `get` returns. */
  function Read(s: Store, k: Key): Option<Value> { ValueOf(Latest(s, k)) }

  // ---------------------------------------------------------------- writes

  function EntryOf(c: Command): Entry {
    match c
    case Set(_, v) => Put(v)
    case Delete(_) => Tombstone
  }

  function Log(s: Store, c: Command): Store {
    s.(wal := s.wal + [c], data := s.data[c.key := EntryOf(c)])
  }

  ghost function Flush(s: Store): Store {
    if s.data == map[] then s
    else
      var t := Table(s.nextId, Listing(s.data));
      var s1 := s.(nextId := s.nextId + 1, files := s.files[t.id := t.records]);
      if |s.levels| == 0 then s1
      else s1.(levels := s.levels[0 := s.levels[0] + [t]], wal := [], data := map[])
  }

  ghost function MaybeFlush(s: Store): Store {
    if |s.data| >= s.config.dataThreshold then Flush(s) else s
  }

  // ---------------------------------------------------------------- compaction

  /** The snapshot's tables leave both levels and the merged table enters the lower one. */
  function Publish(levels: seq<seq<Table>>, i: nat, cur: nat, next: nat, t: Table): seq<seq<Table>>
    requires i + 1 < |levels| && cur <= |levels[i]| && next <= |levels[i + 1]|
  {
    levels[i := levels[i][cur..]][i + 1 := levels[i + 1][next..] + [t]]
  }

  function Ids(ts: seq<Table>): set<nat> { set t | t in ts :: t.id }

  /** The table that replaces `cur` and, below it, `next`. */
  function Merged(cur: seq<Table>, next: seq<Table>, id: nat): Table {
    Table(id, MergeAll(Ranked(cur + next, |cur|)))
  }

  /** `kept` are merged inputs whose files are not deleted. */
  function CompactLevel(s: Store, i: nat, kept: set<nat>): Store {
    if i + 1 >= |s.levels| || s.levels[i] == [] then s
    else
      var cur, next := s.levels[i], s.levels[i + 1];
      var t := Merged(cur, next, s.nextId);
      s.(levels := Publish(s.levels, i, |cur|, |next|, t),
         nextId := s.nextId + 1,
         files := s.files[t.id := t.records] - (Ids(cur + next) - kept))
  }

  /** Which levels are full, decided once per pass. */
  function Flags(s: Store): seq<bool> {
    if |s.levels| < 2 then []
    else seq(|s.levels| - 1, i requires 0 <= i < |s.levels| - 1 => |s.levels[i]| >= s.config.tableThreshold)
  }

  /** The pass after its first `n` levels. */
  function Pass(s: Store, flags: seq<bool>, n: nat, kept: set<nat>): Store
    requires n <= |flags|
  {
    if n == 0 then s
    else
      var s' := Pass(s, flags, n - 1, kept);
      if flags[n - 1] then CompactLevel(s', n - 1, kept) else s'
  }

  function MaybeCompact(s: Store): Store { Pass(s, Flags(s), |Flags(s)|, {}) }

  ghost function Write(s: Store, c: Command): Store { MaybeCompact(MaybeFlush(Log(s, c))) }

  /** A write whose compaction pass stops after `n` levels, some merged inputs being left on disk. */
  ghost function CutShort(s: Store, c: Command, n: nat, kept: set<nat>): Store {
    var s' := MaybeFlush(Log(s, c));
    Pass(s', Flags(s'), if n <= |Flags(s')| then n else |Flags(s')|, kept)
  }

  // ---------------------------------------------------------------- reopening

  function ReplayWal(wal: seq<Command>): map<Key, Entry> {
    if |wal| == 0 then map[]
    else ReplayWal(wal[..|wal| - 1])[wal[|wal| - 1].key := EntryOf(wal[|wal| - 1])]
  }

  predicate Ascending(ids: seq<nat>) { forall i, j :: 0 <= i < j < |ids| ==> ids[i] < ids[j] }

  ghost predicate Enumerates(ids: seq<nat>, s: set<nat>) { Ascending(ids) && forall i :: i in ids <==> i in s }

  function FromFiles(files: map<nat, seq<Record>>, ids: seq<nat>): seq<Table>
    requires forall i :: i in ids ==> i in files
  {
    seq(|ids|, i requires 0 <= i < |ids| => assert ids[i] in ids; Table(ids[i], files[ids[i]]))
  }

  /** All table files in level 0, by id; the log replayed into an empty memtable. */
  function Reopened(files: map<nat, seq<Record>>, ids: seq<nat>, wal: seq<Command>, config: Config): Store
    requires Enumerates(ids, files.Keys)
  {
    if config.levels == 0 then Store(config, ReplayWal(wal), wal, [], 0, files)
    else
      Store(config, ReplayWal(wal), wal, [FromFiles(files, ids)] + seq(config.levels - 1, _ => []),
            if |ids| == 0 then 0 else ids[|ids| - 1] + 1, files)
  }
}
