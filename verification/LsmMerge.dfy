/** The heap-driven k-way merge of a compaction, proved equal to merging the tables two by two. */
module KWayMerge {
  import opened Commands
  import opened Tables

  datatype MergeItem = MergeItem(key: Key, entry: Entry, source: nat, priority: nat)

  datatype Outcome = Ok(records: seq<Record>) | NotSorted

  /** The heap gives out smaller keys first and, for one key, the higher priority. */
  predicate Beats(a: MergeItem, b: MergeItem) {
    Less(a.key, b.key) || (a.key == b.key && a.priority > b.priority)
  }

  /** Sources below `cur` are the level being compacted, the others the level below it. */
  function Priority(source: nat, cur: nat): nat {
    if source < cur then source + cur else source - cur
  }

  // ---------------------------------------------------------------- priorities and recency

  function Reverse(ts: seq<Table>): (r: seq<Table>)
    ensures |r| == |ts| && forall i :: 0 <= i < |ts| ==> r[i] == ts[|ts| - 1 - i]
  {
    if |ts| == 0 then [] else [ts[|ts| - 1]] + Reverse(ts[..|ts| - 1])
  }

  /** The sources in the order a read would search them. */
  function Ranked(ts: seq<Table>, cur: nat): (r: seq<Table>)
    requires cur <= |ts|
    ensures |r| == |ts| && forall s :: 0 <= s < |ts| ==> r[Rank(s, cur, |ts|)] == ts[s]
  {
    Reverse(ts[..cur]) + Reverse(ts[cur..])
  }

  function Rank(s: nat, cur: nat, n: nat): (r: nat)
    requires s < n && cur <= n
    ensures r < n
  {
    if s < cur then cur - 1 - s else cur + (n - 1 - s)
  }

  /** Priorities rank the sources as a read does exactly when the lower level has no more tables than the upper. */
  lemma PrioritiesRank(cur: nat, n: nat)
    requires 1 <= cur <= n
    ensures (forall s, t :: 0 <= s < n && 0 <= t < n ==>
               (Priority(s, cur) > Priority(t, cur) <==> Rank(s, cur, n) < Rank(t, cur, n)))
            <==> n - cur <= cur
  {
    if n - cur > cur {
      assert Rank(0, cur, n) < Rank(cur + cur, cur, n) && !(Priority(0, cur) > Priority(cur + cur, cur));
    }
  }

  // ---------------------------------------------------------------- what is left to merge

  function ItemOf(left: seq<Table>, s: nat, cur: nat): MergeItem
    requires s < |left| && left[s].records != []
  {
    MergeItem(left[s].records[0].key, left[s].records[0].entry, s, Priority(s, cur))
  }

  /** The readers stand just behind the first record left. */
  predicate ReadersAt(left: seq<Table>, readers: seq<seq<Record>>) {
    && |left| == |readers|
    && forall s :: 0 <= s < |left| ==> readers[s] == if left[s].records == [] then [] else left[s].records[1..]
  }

  predicate Items(left: seq<Table>, heap: seq<MergeItem>, cur: nat) {
    forall i :: 0 <= i < |heap| ==>
      heap[i].source < |left| && left[heap[i].source].records != [] && heap[i] == ItemOf(left, heap[i].source, cur)
  }

  predicate OnePerSource(heap: seq<MergeItem>) {
    forall i, j :: 0 <= i < j < |heap| ==> heap[i].source != heap[j].source
  }

  predicate HasItem(heap: seq<MergeItem>, s: nat) { exists i :: 0 <= i < |heap| && heap[i].source == s }

  /** `heap` holds the first record of every source that has any left. */
  predicate Loaded(left: seq<Table>, readers: seq<seq<Record>>, heap: seq<MergeItem>, cur: nat) {
    && ReadersAt(left, readers) && Items(left, heap, cur) && OnePerSource(heap)
    && forall s :: 0 <= s < |left| && left[s].records != [] ==> HasItem(heap, s)
  }

  /** Source `s` has given its first record. */
  function Tailed(left: seq<Table>, s: nat): seq<Table>
    requires s < |left| && left[s].records != []
  {
    left[s := Table(left[s].id, left[s].records[1..])]
  }

  function Total(left: seq<Table>): nat {
    if |left| == 0 then 0 else |left[0].records| + Total(left[1..])
  }

  lemma {:induction false} TailedTotal(left: seq<Table>, s: nat)
    requires s < |left| && left[s].records != []
    ensures Total(Tailed(left, s)) == Total(left) - 1
  {
    if s > 0 {
      assert Tailed(left, s)[1..] == Tailed(left[1..], s - 1);
      TailedTotal(left[1..], s - 1);
    } else {
      assert Tailed(left, s)[1..] == left[1..];
    }
  }

  // ---------------------------------------------------------------- the heap

  method PopGreatest(heap: seq<MergeItem>) returns (i: nat)
    requires |heap| > 0
    ensures i < |heap| && forall j :: 0 <= j < |heap| ==> !Beats(heap[j], heap[i])
  {
    hide Less;
    i := 0;
    LessIrreflexive(heap[0].key);
    for j := 1 to |heap|
      invariant i < j && forall m :: 0 <= m < j ==> !Beats(heap[m], heap[i])
    {
      if Beats(heap[j], heap[i]) {
        forall m | 0 <= m < j + 1 ensures !Beats(heap[m], heap[j]) {
          BeatsOrder(heap[m], heap[j], heap[i]);
        }
        i := j;
      }
    }
  }

  lemma BeatsOrder(a: MergeItem, b: MergeItem, c: MergeItem)
    requires Beats(b, c)
    ensures !Beats(b, b) && (Beats(a, b) ==> Beats(a, c))
  {
    hide Less;
    LessIrreflexive(b.key);
    if Less(a.key, b.key) && Less(b.key, c.key) { LessTrans(a.key, b.key, c.key); }
  }

  function Without(heap: seq<MergeItem>, i: nat): seq<MergeItem>
    requires i < |heap|
  {
    heap[..i] + heap[i + 1..]
  }

  lemma Removed(heap: seq<MergeItem>, i: nat)
    requires OnePerSource(heap) && i < |heap|
    ensures OnePerSource(Without(heap, i)) && !HasItem(Without(heap, i), heap[i].source)
    ensures forall s :: s != heap[i].source && HasItem(heap, s) ==> HasItem(Without(heap, i), s)
  {
    var rest := Without(heap, i);
    forall s | s != heap[i].source && HasItem(heap, s) ensures HasItem(rest, s) {
      var j :| 0 <= j < |heap| && heap[j].source == s;
      assert rest[if j < i then j else j - 1].source == s;
    }
  }

  lemma RemovedItems(left: seq<Table>, heap: seq<MergeItem>, i: nat, cur: nat)
    requires Items(left, heap, cur) && OnePerSource(heap) && i < |heap|
    ensures Items(Tailed(left, heap[i].source), Without(heap, i), cur)
  {
    var rest := Without(heap, i);
    assert forall j :: 0 <= j < |rest| ==> rest[j] == heap[if j < i then j else j + 1];
  }

  lemma PushedItem(heap: seq<MergeItem>, item: MergeItem)
    requires OnePerSource(heap) && !HasItem(heap, item.source)
    ensures OnePerSource(heap + [item]) && HasItem(heap + [item], item.source)
    ensures forall s :: HasItem(heap, s) ==> HasItem(heap + [item], s)
  {
    var more := heap + [item];
    assert more[|heap|].source == item.source;
    forall s | HasItem(heap, s) ensures HasItem(more, s) {
      var j :| 0 <= j < |heap| && heap[j].source == s;
      assert more[j].source == s;
    }
  }

  /** Take item `i` out of the heap and put in the next record of its source, if there is one. */
  method Advance(heap: seq<MergeItem>, readers: seq<seq<Record>>, i: nat, cur: nat, ghost left: seq<Table>)
    returns (heap': seq<MergeItem>, readers': seq<seq<Record>>)
    requires Loaded(left, readers, heap, cur) && i < |heap|
    ensures Loaded(Tailed(left, heap[i].source), readers', heap', cur)
  {
    hide OnePerSource, HasItem, Without;
    var s := heap[i].source;
    Removed(heap, i);
    RemovedItems(left, heap, i, cur);
    heap', readers' := Without(heap, i), readers;
    if |readers[s]| > 0 {
      var next := readers[s][0];
      var item := MergeItem(next.key, next.entry, s, Priority(s, cur));
      PushedItem(heap', item);
      readers' := readers[s := readers[s][1..]];
      heap' := heap' + [item];
    }
  }

  // ---------------------------------------------------------------- one round

  lemma {:induction false} SearchPointwise(a: seq<Table>, b: seq<Table>, k: Key)
    requires |a| == |b| && forall i :: 0 <= i < |a| ==> Find(a[i].records, k) == Find(b[i].records, k)
    ensures Search(a, k) == Search(b, k)
  {
    if |a| > 0 {
      SearchPointwise(a[1..], b[1..], k);
    }
  }

  lemma RankedPointwise(a: seq<Table>, b: seq<Table>, cur: nat, k: Key)
    requires cur <= |a| == |b| && forall i :: 0 <= i < |a| ==> Find(a[i].records, k) == Find(b[i].records, k)
    ensures Search(Ranked(a, cur), k) == Search(Ranked(b, cur), k)
  {
    hide Find, Search;
    SearchPointwise(Ranked(a, cur), Ranked(b, cur), k);
  }

  /** All keys still to come are `key` or above. */
  predicate From(left: seq<Table>, key: Key) {
    forall s :: 0 <= s < |left| && left[s].records != [] ==>
      left[s].records[0].key == key || Less(key, left[s].records[0].key)
  }

  predicate Unbeaten(heap: seq<MergeItem>, i: nat)
    requires i < |heap|
  {
    forall j :: 0 <= j < |heap| ==> !Beats(heap[j], heap[i])
  }

  lemma GreatestIsFirst(left: seq<Table>, readers: seq<seq<Record>>, heap: seq<MergeItem>, cur: nat, i: nat)
    requires Loaded(left, readers, heap, cur) && i < |heap| && Unbeaten(heap, i)
    ensures From(left, heap[i].key)
  {
    hide Less, OnePerSource, ReadersAt;
    forall s | 0 <= s < |left| && left[s].records != []
      ensures left[s].records[0].key == heap[i].key || Less(heap[i].key, left[s].records[0].key)
    {
      assert HasItem(heap, s);
      var j :| 0 <= j < |heap| && heap[j].source == s;
      LessTotal(left[s].records[0].key, heap[i].key);
      assert !Beats(heap[j], heap[i]);
    }
  }

  /** Sources that a read searches before the greatest item's source do not have its key. */
  lemma NewerHaveNot(left: seq<Table>, readers: seq<seq<Record>>, heap: seq<MergeItem>, cur: nat, i: nat, t: nat)
    requires Loaded(left, readers, heap, cur) && i < |heap| && Unbeaten(heap, i) && AllSorted(left)
    requires 1 <= cur <= |left| && |left| - cur <= cur && t < |left|
             && Rank(t, cur, |left|) < Rank(heap[i].source, cur, |left|)
    ensures Find(left[t].records, heap[i].key) == None
  {
    hide Less, OnePerSource, ReadersAt, Find;
    if left[t].records != [] {
      assert HasItem(heap, t);
      var j :| 0 <= j < |heap| && heap[j].source == t;
      assert !Beats(heap[j], heap[i]);
      LessTotal(left[t].records[0].key, heap[i].key);
    }
    FindNone(left[t].records, heap[i].key);
  }

  /** The greatest item is what a read of its key would have found. */
  lemma GreatestWins(left: seq<Table>, readers: seq<seq<Record>>, heap: seq<MergeItem>, cur: nat, i: nat)
    requires Loaded(left, readers, heap, cur) && i < |heap| && Unbeaten(heap, i) && AllSorted(left)
    requires 1 <= cur <= |left| && |left| - cur <= cur
    ensures Search(Ranked(left, cur), heap[i].key) == Some(heap[i].entry)
  {
    hide Less, OnePerSource, ReadersAt, Sorted, HasItem;
    var ranked, n, s := Ranked(left, cur), |left|, heap[i].source;
    var r := Rank(s, cur, n);
    forall j | 0 <= j < r ensures Find(ranked[j].records, heap[i].key) == None {
      var t := if j < cur then cur - 1 - j else n - 1 - (j - cur);
      assert Rank(t, cur, n) == j;
      NewerHaveNot(left, readers, heap, cur, i, t);
    }
    assert ranked[r] == left[s];
    SearchHit(ranked, r, heap[i].key);
  }

  lemma TailedSorted(left: seq<Table>, s: nat, key: Key)
    requires AllSorted(left) && s < |left| && left[s].records != [] && left[s].records[0].key == key && From(left, key)
    ensures AllSorted(Tailed(left, s)) && From(Tailed(left, s), key)
    ensures forall t, k :: 0 <= t < |left| && k != key ==>
              Find(Tailed(left, s)[t].records, k) == Find(left[t].records, k)
  {
    hide Less, Sorted;
    SortedTail(left[s].records);
  }

  /** What has been written and what is left together still answer as the inputs do. */
  ghost predicate Faithful(out: seq<Record>, left: seq<Table>, tables: seq<Table>, cur: nat)
    requires cur <= |left| && cur <= |tables|
  {
    forall k :: (if Find(out, k).Some? then Find(out, k) else Search(Ranked(left, cur), k)) ==
                Search(Ranked(tables, cur), k)
  }

  lemma RoundFaithful(out: seq<Record>, x: Record, left: seq<Table>, left': seq<Table>, tables: seq<Table>, cur: nat)
    requires cur <= |left| == |left'| && cur <= |tables| && Faithful(out, left, tables, cur)
    requires Search(Ranked(left, cur), x.key) == Some(x.entry)
    requires forall t, k :: 0 <= t < |left| && k != x.key ==> Find(left'[t].records, k) == Find(left[t].records, k)
    ensures Faithful(out + [x], left', tables, cur)
  {
    hide Ranked, Search;
    forall k ensures (if Find(out + [x], k).Some? then Find(out + [x], k) else Search(Ranked(left', cur), k))
                     == Search(Ranked(tables, cur), k)
    {
      FindConcat(out, [x], k);
      assert Find([x][1..], k) == None;
      if k != x.key {
        RankedPointwise(left', left, cur, k);
      }
    }
  }

  predicate Past(out: seq<Record>, left: seq<Table>) {
    |out| > 0 ==> forall s :: 0 <= s < |left| && left[s].records != [] ==>
      Less(out[|out| - 1].key, left[s].records[0].key)
  }

  /** Once no item with `key` is on top, nothing with `key` is left. */
  lemma KeyIsPast(left: seq<Table>, readers: seq<seq<Record>>, heap: seq<MergeItem>, cur: nat, key: Key, i: nat)
    requires Loaded(left, readers, heap, cur) && From(left, key)
    requires i < |heap| && Unbeaten(heap, i) && heap[i].key != key
    ensures forall s :: 0 <= s < |left| && left[s].records != [] ==> Less(key, left[s].records[0].key)
  {
    hide Less, OnePerSource, ReadersAt;
    assert Less(key, heap[i].key);
    forall s | 0 <= s < |left| && left[s].records != [] ensures Less(key, left[s].records[0].key) {
      assert HasItem(heap, s);
      var j :| 0 <= j < |heap| && heap[j].source == s;
      assert !Beats(heap[j], heap[i]);
    }
  }

  lemma NothingLeft(left: seq<Table>, readers: seq<seq<Record>>, cur: nat, k: Key)
    requires Loaded(left, readers, [], cur) && cur <= |left|
    ensures Search(Ranked(left, cur), k) == None
    ensures forall s :: 0 <= s < |left| ==> left[s].records == []
  {
    NothingLeftNow(left, readers, [], cur);
    assert forall j :: 0 <= j < |Ranked(left, cur)| ==> Ranked(left, cur)[j].records == [];
    SearchMiss(Ranked(left, cur), k);
  }

  // ---------------------------------------------------------------- the merge

  lemma NoItemYet(heap: seq<MergeItem>, s: nat)
    requires forall i :: 0 <= i < |heap| ==> heap[i].source < s
    ensures !HasItem(heap, s) && (heap == [] ==> OnePerSource(heap))
  {}

  method Load(tables: seq<Table>, cur: nat) returns (heap: seq<MergeItem>, readers: seq<seq<Record>>)
    ensures Loaded(tables, readers, heap, cur)
  {
    hide OnePerSource, HasItem;
    heap, readers := [], [];
    NoItemYet(heap, 0);
    for s := 0 to |tables|
      invariant |readers| == s
      invariant forall t :: 0 <= t < s ==>
                  readers[t] == if tables[t].records == [] then [] else tables[t].records[1..]
      invariant Items(tables, heap, cur) && OnePerSource(heap)
      invariant forall i :: 0 <= i < |heap| ==> heap[i].source < s
      invariant forall t :: 0 <= t < s && tables[t].records != [] ==> HasItem(heap, t)
    {
      var r := tables[s].records;
      if |r| > 0 {
        var item := MergeItem(r[0].key, r[0].entry, s, Priority(s, cur));
        NoItemYet(heap, s);
        PushedItem(heap, item);
        heap := heap + [item];
        readers := readers + [r[1..]];
      } else {
        readers := readers + [[]];
      }
    }
  }

  /** The writer refuses a key that is not above the last one. */
  method WriteEntry(out: seq<Record>, x: Record) returns (r: Outcome)
    ensures r == if |out| > 0 && !Less(out[|out| - 1].key, x.key) then NotSorted else Ok(out + [x])
  {
    if |out| > 0 && !Less(out[|out| - 1].key, x.key) {
      return NotSorted;
    }
    r := Ok(out + [x]);
  }

  /** Every lower-priority version of `key` is skipped. */
  method SkipKey(heap: seq<MergeItem>, readers: seq<seq<Record>>, cur: nat, key: Key, ghost left: seq<Table>)
    returns (heap': seq<MergeItem>, readers': seq<seq<Record>>, ghost left': seq<Table>)
    requires Loaded(left, readers, heap, cur) && AllSorted(left) && From(left, key)
    ensures Loaded(left', readers', heap', cur) && AllSorted(left') && |left'| == |left| && Total(left') <= Total(left)
    ensures forall s :: 0 <= s < |left'| && left'[s].records != [] ==> Less(key, left'[s].records[0].key)
    ensures forall t, k :: 0 <= t < |left| && k != key ==> Find(left'[t].records, k) == Find(left[t].records, k)
  {
    hide Less, ReadersAt, OnePerSource, HasItem, Sorted, Find;
    heap', readers', left' := heap, readers, left;
    while |heap'| > 0
      invariant Loaded(left', readers', heap', cur) && AllSorted(left') && From(left', key)
      invariant |left'| == |left| && Total(left') <= Total(left)
      invariant forall t, k :: 0 <= t < |left| && k != key ==> Find(left'[t].records, k) == Find(left[t].records, k)
      decreases Total(left')
    {
      var i := PopGreatest(heap');
      if heap'[i].key != key {
        KeyIsPast(left', readers', heap', cur, key, i);
        return;
      }
      var s := heap'[i].source;
      TailedSorted(left', s, key);
      TailedTotal(left', s);
      heap', readers' := Advance(heap', readers', i, cur, left');
      left' := Tailed(left', s);
    }
    NothingLeftNow(left', readers', heap', cur);
  }

  lemma NothingLeftNow(left: seq<Table>, readers: seq<seq<Record>>, heap: seq<MergeItem>, cur: nat)
    requires Loaded(left, readers, heap, cur) && |heap| == 0
    ensures forall s :: 0 <= s < |left| ==> left[s].records == []
  {
    assert forall s: nat :: !HasItem(heap, s);
  }

  /** Some table has the key. */
  predicate AnyHas(ts: seq<Table>, k: Key) { exists s :: 0 <= s < |ts| && Find(ts[s].records, k).Some? }

  /** What has been written and what is left together have the inputs' keys. */
  ghost predicate Covers(out: seq<Record>, left: seq<Table>, tables: seq<Table>) {
    forall k :: Find(out, k).Some? || AnyHas(left, k) <==> AnyHas(tables, k)
  }

  lemma RoundCovers(out: seq<Record>, x: Record, left: seq<Table>, left': seq<Table>, tables: seq<Table>)
    requires |left| == |left'| && Covers(out, left, tables) && AnyHas(left, x.key)
    requires forall t, k :: 0 <= t < |left| && k != x.key ==> Find(left'[t].records, k) == Find(left[t].records, k)
    requires forall s :: 0 <= s < |left'| ==> Find(left'[s].records, x.key) == None
    ensures Covers(out + [x], left', tables)
  {
    forall k ensures Find(out + [x], k).Some? || AnyHas(left', k) <==> AnyHas(tables, k) {
      FindConcat(out, [x], k);
      assert Find([x][1..], k) == None;
      if k != x.key {
        assert AnyHas(left', k) <==> AnyHas(left, k);
      }
    }
  }

  lemma HeadHas(left: seq<Table>, s: nat)
    requires s < |left| && left[s].records != []
    ensures AnyHas(left, left[s].records[0].key)
  {
    assert Find(left[s].records, left[s].records[0].key).Some?;
  }

  lemma PastHaveNot(left: seq<Table>, key: Key)
    requires AllSorted(left)
    requires forall s :: 0 <= s < |left| && left[s].records != [] ==> Less(key, left[s].records[0].key)
    ensures forall s :: 0 <= s < |left| ==> Find(left[s].records, key) == None
  {
    hide Less, Find, Sorted;
    forall s | 0 <= s < |left| ensures Find(left[s].records, key) == None {
      FindNone(left[s].records, key);
    }
  }

  lemma NoneLeftCovers(out: seq<Record>, left: seq<Table>, tables: seq<Table>, k: Key)
    requires Covers(out, left, tables) && forall s :: 0 <= s < |left| ==> left[s].records == []
    ensures Holds(out, k) <==> AnyHas(tables, k)
  {
    FindHolds(out, k);
    assert !AnyHas(left, k);
  }

  /** Priorities rank the sources as a read does: see `PrioritiesRank`. */
  predicate Ranks(n: nat, cur: nat) { 1 <= cur <= n && n - cur <= cur }

  /**
    The merge never asks the writer for an unsorted key, and its output has exactly the inputs' keys. When the
    lower level has no more tables than the upper, the output is the two-by-two merge of the tables in search
    order. `tables` are the `cur` tables of the level, then those of the level below.
  */
  method Merge(tables: seq<Table>, cur: nat) returns (r: Outcome)
    requires AllSorted(tables) && cur <= |tables|
    ensures r.Ok? && Sorted(r.records) && forall k :: Holds(r.records, k) <==> AnyHas(tables, k)
    ensures Ranks(|tables|, cur) ==> r == Ok(MergeAll(Ranked(tables, cur)))
  {
    hide Less, Loaded, Sorted, Find, Search, Ranked, MergeAll, From, Beats, Holds, AnyHas;
    var heap, readers := Load(tables, cur);
    ghost var left := tables;
    var out: seq<Record> := [];
    StartFaithful(tables, cur);
    while |heap| > 0
      invariant Loaded(left, readers, heap, cur) && |left| == |tables| && AllSorted(left)
      invariant Sorted(out) && Past(out, left) && Covers(out, left, tables)
      invariant Ranks(|tables|, cur) ==> Faithful(out, left, tables, cur)
      decreases Total(left)
    {
      var i := PopGreatest(heap);
      var item := heap[i];
      RoundStart(left, readers, heap, cur, i, out);
      var written := WriteEntry(out, Record(item.key, item.entry));
      if written.NotSorted? { return written; }
      ghost var before := left;
      heap, readers := Advance(heap, readers, i, cur, left);
      left := Tailed(left, item.source);
      heap, readers, left := SkipKey(heap, readers, cur, item.key, left);
      PastHaveNot(left, item.key);
      RoundCovers(out, Record(item.key, item.entry), before, left, tables);
      if Ranks(|tables|, cur) {
        RoundFaithful(out, Record(item.key, item.entry), before, left, tables, cur);
      }
      out := written.records;
    }
    r := Ok(out);
    NothingLeftNow(left, readers, heap, cur);
    forall k ensures Holds(out, k) <==> AnyHas(tables, k) {
      NoneLeftCovers(out, left, tables, k);
    }
    if Ranks(|tables|, cur) {
      MergeEnds(out, left, readers, heap, tables, cur);
    }
  }

  lemma StartFaithful(tables: seq<Table>, cur: nat)
    requires cur <= |tables|
    ensures Sorted([]) && Past([], tables) && Faithful([], tables, tables, cur) && Covers([], tables, tables)
  {}

  lemma RoundStart(left: seq<Table>, readers: seq<seq<Record>>, heap: seq<MergeItem>, cur: nat, i: nat,
                   out: seq<Record>)
    requires Loaded(left, readers, heap, cur) && i < |heap| && Unbeaten(heap, i) && AllSorted(left)
    requires cur <= |left| && Sorted(out) && Past(out, left)
    ensures var s, key := heap[i].source, heap[i].key;
            && s < |left| && left[s].records != [] && From(left, key) && AnyHas(left, key)
            && (Ranks(|left|, cur) ==> Search(Ranked(left, cur), key) == Some(heap[i].entry))
            && (|out| > 0 ==> Less(out[|out| - 1].key, key)) && Sorted(out + [Record(key, heap[i].entry)])
            && AllSorted(Tailed(left, s)) && From(Tailed(left, s), key)
            && Total(Tailed(left, s)) < Total(left)
            && forall t, k :: 0 <= t < |left| && k != key ==>
                 Find(Tailed(left, s)[t].records, k) == Find(left[t].records, k)
  {
    hide Less, Sorted, Find, Search, Ranked, HasItem, OnePerSource, ReadersAt, AnyHas;
    GreatestIsFirst(left, readers, heap, cur, i);
    if Ranks(|left|, cur) { GreatestWins(left, readers, heap, cur, i); }
    HeadHas(left, heap[i].source);
    TailedSorted(left, heap[i].source, heap[i].key);
    TailedTotal(left, heap[i].source);
    SortedSnoc(out, Record(heap[i].key, heap[i].entry));
  }

  lemma MergeEnds(out: seq<Record>, left: seq<Table>, readers: seq<seq<Record>>, heap: seq<MergeItem>,
                  tables: seq<Table>, cur: nat)
    requires Loaded(left, readers, heap, cur) && |heap| == 0 && cur <= |left| == |tables| && AllSorted(tables)
    requires Sorted(out) && Faithful(out, left, tables, cur)
    ensures out == MergeAll(Ranked(tables, cur))
  {
    hide Sorted, Find, Search, Loaded, MergeAll;
    assert heap == [];
    var order := Ranked(tables, cur);
    RankedSorted(tables, cur);
    MergeAllCorrect(order, []);
    forall k ensures Find(out, k) == Find(MergeAll(order), k) {
      NothingLeft(left, readers, cur, k);
      MergeAllCorrect(order, k);
    }
    SameAnswers(out, MergeAll(order));
  }

  lemma RankedSorted(tables: seq<Table>, cur: nat)
    requires AllSorted(tables) && cur <= |tables|
    ensures AllSorted(Ranked(tables, cur))
  {}
}
