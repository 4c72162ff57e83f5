/** The storage engine as the program runs it, proved against the functions of `Store`. */
module DatabaseModule {
  import opened Commands
  import opened Tables
  import opened KWayMerge
  import opened Store
  import opened StoreReads
  import opened StoreDisk
  import opened Engine

  // ---------------------------------------------------------------- lemmas about the loops

  lemma ListingUniqueRest(data: map<Key, Entry>, r: seq<Record>, rest: map<Key, Entry>)
    requires rest == map[] && Sorted(r)
    requires forall k :: Find(r, k) == if k in rest then None else Lookup(data, k)
    ensures r == Listing(data)
  {
    hide Sorted;
    ListingUnique(data, r);
  }

  lemma ListOneMore(data: map<Key, Entry>, rest: map<Key, Entry>, r: seq<Record>, k: Key)
    requires Sorted(r) && k in rest && k in data && rest[k] == data[k]
    requires forall j :: Find(r, j) == if j in rest then None else Lookup(data, j)
    ensures var r' := MergeTwo([Record(k, data[k])], r);
            && Sorted(r')
            && forall j :: Find(r', j) == if j in rest - {k} then None else Lookup(data, j)
  {
    hide MergeTwo;
    var one := [Record(k, data[k])];
    assert Sorted(one);
    hide Sorted;
    MergeTwoCorrect(one, r, k);
    forall j ensures Find(MergeTwo(one, r), j) == if j in rest - {k} then None else Lookup(data, j) {
      MergeTwoCorrect(one, r, j);
      assert Find(one[1..], j) == None;
    }
  }

  /** The memtable's entries, sorted by key. */
  method SortEntries(data: map<Key, Entry>) returns (r: seq<Record>)
    ensures r == Listing(data)
  {
    hide Sorted, MergeTwo, Find, Listing;
    r := [];
    var rest := data;
    assert Sorted(r) && forall k :: Find(r, k) == None by { EmptyTable(); }
    while rest != map[]
      invariant Sorted(r)
      invariant forall k :: k in rest ==> k in data && rest[k] == data[k]
      invariant forall k :: Find(r, k) == if k in rest then None else Lookup(data, k)
      decreases rest.Keys
    {
      var k :| k in rest;
      ListOneMore(data, rest, r, k);
      r := MergeTwo([Record(k, data[k])], r);
      rest := rest - {k};
    }
    ListingUniqueRest(data, r, rest);
  }

  lemma EmptyTable()
    ensures Sorted([]) && forall k :: Find([], k) == None
  {}

  lemma {:induction false} IdsUnique(a: seq<nat>, b: seq<nat>, s: set<nat>)
    requires Enumerates(a, s) && Enumerates(b, s)
    ensures a == b
  {
    NoIds(a, s);
    NoIds(b, s);
    if s != {} {
      var x, y := a[|a| - 1], b[|b| - 1];
      assert x in a && y in b;
      LastIsGreatest(a, Where(a, y));
      LastIsGreatest(b, Where(b, x));
      WithoutLast(a, s);
      WithoutLast(b, s);
      IdsUnique(a[..|a| - 1], b[..|b| - 1], s - {x});
      assert a == a[..|a| - 1] + [x] && b == b[..|b| - 1] + [y];
    }
  }

  lemma NoIds(a: seq<nat>, s: set<nat>)
    requires Enumerates(a, s)
    ensures |a| == 0 <==> s == {}
  {
    assert |a| > 0 ==> a[0] in a;
  }

  lemma LastIsGreatest(a: seq<nat>, i: nat)
    requires Ascending(a) && i < |a|
    ensures a[i] <= a[|a| - 1]
  {}

  lemma WithoutLast(a: seq<nat>, s: set<nat>)
    requires Enumerates(a, s) && |a| > 0
    ensures Enumerates(a[..|a| - 1], s - {a[|a| - 1]})
  {
    var front, x := a[..|a| - 1], a[|a| - 1];
    assert a == front + [x];
    forall i ensures i in front <==> i in s - {x} {
      if i in front {
        assert a[Where(front, i)] == i;
      }
      if i in s - {x} {
        assert i in a;
      }
    }
  }

  /** The ids found in the directory, in ascending order. */
  method SortIds(ids: set<nat>) returns (r: seq<nat>)
    ensures Enumerates(r, ids)
  {
    r := [];
    var rest := ids;
    while rest != {}
      invariant rest <= ids && Ascending(r)
      invariant forall i :: i in r <==> i in ids - rest
      invariant forall i, j :: i in r && j in rest ==> i < j
      decreases rest
    {
      var m := Least(rest);
      assert forall i :: 0 <= i < |r| ==> r[i] in r;
      rest := rest - {m};
      r := r + [m];
    }
  }

  method Least(s: set<nat>) returns (m: nat)
    requires s != {}
    ensures m in s && forall x :: x in s ==> m <= x
  {
    m :| m in s;
    var rest := s - {m};
    while rest != {}
      invariant m in s && rest <= s && forall x :: x in s ==> x in rest || m <= x
      decreases rest
    {
      var x :| x in rest;
      rest := rest - {x};
      if x < m { m := x; }
    }
  }

  lemma {:induction false} SearchSnoc(order: seq<Table>, t: Table, k: Key)
    ensures Search(order + [t], k) == if Search(order, k).Some? then Search(order, k) else Find(t.records, k)
  {
    SearchConcat(order, [t], k);
    SearchOne(t, k);
  }

  class Database {
    const config: Config
    var data: map<Key, Entry>
    var wal: seq<Command>
    var levels: seq<seq<Table>>
    var nextId: nat
    var files: map<nat, seq<Record>>

    function View(): Store
      reads this
    {
      Store(config, data, wal, levels, nextId, files)
    }

    // -------------------------------------------------------------- opening

    constructor OpenInDir(files: map<nat, seq<Record>>, wal: seq<Command>, config: Config)
      ensures View() == Reopened(files, IdsOf(files), wal, config)
    {
      hide IdsOf, ReplayWal;
      this.config, this.files, this.wal := config, files, wal;
      data, nextId := map[], 0;
      levels := seq(config.levels, _ => []);
      new;
      LoadTables();
      Recover();
    }

    method LoadTables()
      requires levels == seq(config.levels, _ => []) && nextId == 0
      modifies this`levels, this`nextId
      ensures var s := Reopened(files, IdsOf(files), wal, config);
              levels == s.levels && nextId == s.nextId
    {
      hide IdsOf, Enumerates, ReplayWal;
      var ids := SortIds(files.Keys);
      assert ids == IdsOf(files) by { IdsUnique(ids, IdsOf(files), files.Keys); }
      if |levels| == 0 { return; }
      assert forall i :: 0 <= i < |ids| ==> ids[i] in files.Keys by { MembersOf(ids, files.Keys); }
      ghost var empty := levels[1..];
      for i := 0 to |ids|
        invariant |levels| == config.levels && levels[1..] == empty
        invariant |levels[0]| == i && forall j :: 0 <= j < i ==> levels[0][j] == Table(ids[j], files[ids[j]])
        invariant nextId == if i == 0 then 0 else ids[i - 1] + 1
      {
        assert i > 0 ==> ids[i - 1] < ids[i] by { AscendingAt(ids, files.Keys, i); }
        levels := levels[0 := levels[0] + [Table(ids[i], files[ids[i]])]];
        if ids[i] + 1 > nextId {
          nextId := ids[i] + 1;
        }
      }
      assert levels[0] == FromFiles(files, ids);
      assert levels == [levels[0]] + levels[1..];
    }

    method Recover()
      requires data == map[]
      modifies this`data
      ensures data == ReplayWal(wal)
    {
      for i := 0 to |wal|
        invariant data == ReplayWal(wal[..i])
      {
        assert wal[..i + 1][..i] == wal[..i];
        match wal[i] {
          case Set(key, value) => data := data[key := Put(value)];
          case Delete(key) => data := data[key := Tombstone];
        }
      }
      assert wal[..|wal|] == wal;
    }

    // -------------------------------------------------------------- reading

    method GetValue(k: Key) returns (r: Option<Value>)
      ensures r == Read(View(), k)
    {
      if k in data {
        return match data[k] case Put(v) => Some(v) case Tombstone => None;
      }
      for i := 0 to |levels|
        invariant Search(Order(levels[..i]), k) == None
      {
        var e := SearchLevel(levels[i], k);
        OrderSnoc(levels, i);
        SearchConcat(Order(levels[..i]), Reverse(levels[i]), k);
        if e.Some? {
          FoundEarly(levels, i, k);
          return match e.value case Put(v) => Some(v) case Tombstone => None;
        }
      }
      assert levels[..|levels|] == levels;
      r := None;
    }

    // -------------------------------------------------------------- writing

    method Insert(k: Key, v: Value)
      requires Wf(View())
      modifies this
      ensures Wf(View()) && View() == Write(old(View()), Set(k, v))
    {
      hide Wf, Flush, MaybeCompact, Log;
      ghost var s := View();
      WriteReads(s, Set(k, v), 0, {}, []);
      Record(Set(k, v));
      LogReads(s, Set(k, v), []);
      FlushIfFull();
      FlushReads(Log(s, Set(k, v)), []);
      CompactIfFull();
    }

    method Remove(k: Key)
      requires Wf(View())
      modifies this
      ensures Wf(View()) && View() == Write(old(View()), Delete(k))
    {
      hide Wf, Flush, MaybeCompact, Log;
      ghost var s := View();
      WriteReads(s, Delete(k), 0, {}, []);
      Record(Delete(k));
      LogReads(s, Delete(k), []);
      FlushIfFull();
      FlushReads(Log(s, Delete(k)), []);
      CompactIfFull();
    }

    /** The log first, then the memtable. */
    method Record(c: Command)
      modifies this`wal, this`data
      ensures View() == Log(old(View()), c)
    {
      wal := wal + [c];
      data := data[c.key := match c case Set(_, v) => Put(v) case Delete(_) => Tombstone];
    }

    method FlushIfFull()
      modifies this
      ensures View() == MaybeFlush(old(View()))
    {
      hide Flush;
      if |data| >= config.dataThreshold {
        FlushMemoryToDisk();
      }
    }

    method FlushMemoryToDisk()
      modifies this
      ensures View() == Flush(old(View()))
    {
      if data == map[] { return; }
      var id := nextId;
      nextId := nextId + 1;
      var entries := SortEntries(data);
      files := files[id := entries];
      if |levels| == 0 { return; }
      levels := levels[0 := levels[0] + [Table(id, entries)]];
      wal := [];
      data := map[];
    }

    method CompactIfFull()
      requires Wf(View())
      modifies this
      ensures Wf(View()) && View() == MaybeCompact(old(View()))
    {
      hide Wf, Pass, Publish, Merged;
      ghost var s := View();
      if |levels| < 2 { assert Flags(s) == []; PassZero(s, []); return; }
      var full := seq(|levels| - 1, i requires 0 <= i < |levels| - 1 reads this =>
                      |levels[i]| >= config.tableThreshold);
      assert full == Flags(s);
      hide Flags;
      PassZero(s, full);
      for i := 0 to |full|
        invariant Wf(View()) && View() == Pass(s, full, i, {})
      {
        PassNext(s, full, i);
        CompactReads(View(), i, {}, []);
        if full[i] {
          Compact(i);
        }
      }
    }

    method Compact(i: nat)
      requires Wf(View())
      modifies this
      ensures View() == CompactLevel(old(View()), i, {})
    {
      hide MergeAll, Ranked, ReplayWal, Sorted;
      if i + 1 >= |levels| || levels[i] == [] { return; }
      var cur, next := levels[i], levels[i + 1];
      var id := nextId;
      nextId := nextId + 1;
      assert AllSorted(cur) && AllSorted(next) && |next| <= 1;
      var merged := Merge(cur + next, |cur|);
      var t := Table(id, merged.records);
      files := files[id := t.records];
      levels := levels[i := levels[i][|cur|..]][i + 1 := levels[i + 1][|next|..] + [t]];
      files := files - Ids(cur + next);
      assert Ids(cur + next) - {} == Ids(cur + next);
    }
  }

  method SearchLevel(level: seq<Table>, k: Key) returns (e: Option<Entry>)
    ensures e == Search(Reverse(level), k)
  {
    var n := |level|;
    assert Search(Reverse(level)[..0], k) == None;
    for i := 0 to n
      invariant Search(Reverse(level)[..i], k) == None
    {
      var t := level[n - 1 - i];
      assert Reverse(level)[..i + 1] == Reverse(level)[..i] + [t];
      SearchSnoc(Reverse(level)[..i], t, k);
      e := Find(t.records, k);
      if e.Some? {
        SearchConcat(Reverse(level)[..i + 1], Reverse(level)[i + 1..], k);
        assert Reverse(level)[..i + 1] + Reverse(level)[i + 1..] == Reverse(level);
        return;
      }
    }
    assert Reverse(level)[..n] == Reverse(level);
    e := None;
  }

  lemma OrderSnoc(levels: seq<seq<Table>>, i: nat)
    requires i < |levels|
    ensures Order(levels[..i + 1]) == Order(levels[..i]) + Reverse(levels[i])
  {
    hide Reverse;
    assert levels[..i + 1] == levels[..i] + [levels[i]];
    OrderConcat(levels[..i], [levels[i]]);
    assert [levels[i]][1..] == [];
    assert Order([levels[i]]) == Reverse(levels[i]) + [];
  }

  lemma FoundEarly(levels: seq<seq<Table>>, i: nat, k: Key)
    requires i < |levels| && Search(Order(levels[..i + 1]), k).Some?
    ensures Search(Order(levels), k) == Search(Order(levels[..i + 1]), k)
  {
    hide Order;
    assert levels == levels[..i + 1] + levels[i + 1..];
    OrderConcat(levels[..i + 1], levels[i + 1..]);
    SearchConcat(Order(levels[..i + 1]), Order(levels[i + 1..]), k);
  }

  lemma PassZero(s: Store, flags: seq<bool>)
    ensures Pass(s, flags, 0, {}) == s
  {}

  lemma PassNext(s: Store, flags: seq<bool>, i: nat)
    requires i < |flags|
    ensures Pass(s, flags, i + 1, {}) ==
            var s' := Pass(s, flags, i, {}); if flags[i] then CompactLevel(s', i, {}) else s'
  {}

  lemma MembersOf(ids: seq<nat>, s: set<nat>)
    requires Enumerates(ids, s)
    ensures forall i :: 0 <= i < |ids| ==> ids[i] in s
  {
    assert forall i :: 0 <= i < |ids| ==> ids[i] in ids;
  }

  lemma AscendingAt(ids: seq<nat>, s: set<nat>, i: nat)
    requires Enumerates(ids, s) && i < |ids|
    ensures i > 0 ==> ids[i - 1] < ids[i]
  {}
}
