/** Sorted tables of the storage engine: key order, lookup, merging, and listing a memtable. */
module Tables {
  import opened Commands

  /** What a table stores for a key: a deletion is stored too, so that it hides older tables. */
  datatype Entry = Put(value: Value) | Tombstone

  datatype Record = Record(key: Key, entry: Entry)

  /** A table file: its number in the file name, and its records. */
  datatype Table = Table(id: nat, records: seq<Record>)

  // ---------------------------------------------------------------- the order of keys

  /** Strings are compared byte by byte. */
  predicate Less(a: Key, b: Key) {
    |b| > 0 && (|a| == 0 || a[0] < b[0] || (a[0] == b[0] && Less(a[1..], b[1..])))
  }

  lemma {:induction false} LessIrreflexive(a: Key)
    ensures !Less(a, a)
  {
    if |a| > 0 { LessIrreflexive(a[1..]); }
  }

  lemma {:induction false} LessTrans(a: Key, b: Key, c: Key)
    requires Less(a, b) && Less(b, c)
    ensures Less(a, c)
  {
    if |a| > 0 && a[0] == b[0] == c[0] { LessTrans(a[1..], b[1..], c[1..]); }
  }

  lemma {:induction false} LessTotal(a: Key, b: Key)
    ensures Less(a, b) || a == b || Less(b, a)
  {
    if |a| > 0 && |b| > 0 && a[0] == b[0] {
      LessTotal(a[1..], b[1..]);
      assert a == [a[0]] + a[1..] && b == [b[0]] + b[1..];
    }
  }

  // ---------------------------------------------------------------- sorted records

  predicate Sorted(r: seq<Record>) {
    forall i, j :: 0 <= i < j < |r| ==> Less(r[i].key, r[j].key)
  }

  predicate Above(k: Key, r: seq<Record>) { |r| > 0 ==> Less(k, r[0].key) }

  lemma SortedCons(x: Record, r: seq<Record>)
    requires Sorted(r) && Above(x.key, r)
    ensures Sorted([x] + r)
  {
    hide Less;
    var s := [x] + r;
    forall i, j | 0 <= i < j < |s| ensures Less(s[i].key, s[j].key) {
      if i == 0 && j > 1 {
        LessTrans(x.key, r[0].key, r[j - 1].key);
      }
    }
  }

  lemma SortedTail(r: seq<Record>)
    requires Sorted(r) && |r| > 0
    ensures Sorted(r[1..]) && Above(r[0].key, r[1..])
  {
    hide Less;
    if |r| > 1 {
      assert Less(r[0].key, r[1].key);
    }
  }

  lemma SortedSnoc(r: seq<Record>, x: Record)
    requires Sorted(r) && (|r| > 0 ==> Less(r[|r| - 1].key, x.key))
    ensures Sorted(r + [x])
  {
    hide Less;
    var s := r + [x];
    forall i, j | 0 <= i < j < |s| ensures Less(s[i].key, s[j].key) {
      if i < |r| - 1 && j == |r| {
        LessTrans(r[i].key, r[|r| - 1].key, x.key);
      }
    }
  }

  // ---------------------------------------------------------------- lookup

  function Find(r: seq<Record>, k: Key): Option<Entry> {
    if |r| == 0 then None
    else if r[0].key == k then Some(r[0].entry)
    else Find(r[1..], k)
  }

  predicate Holds(r: seq<Record>, k: Key) { exists i :: 0 <= i < |r| && r[i].key == k }

  lemma {:induction false} FindHolds(r: seq<Record>, k: Key)
    ensures Find(r, k).Some? <==> Holds(r, k)
  {
    if |r| > 0 && r[0].key != k {
      FindHolds(r[1..], k);
      if Holds(r, k) {
        var i :| 0 <= i < |r| && r[i].key == k;
        assert r[1..][i - 1].key == k;
      }
      if Holds(r[1..], k) {
        var i :| 0 <= i < |r[1..]| && r[1..][i].key == k;
        assert r[i + 1].key == k;
      }
    }
  }

  lemma {:induction false} FindAt(r: seq<Record>, i: nat)
    requires Sorted(r) && i < |r|
    ensures Find(r, r[i].key) == Some(r[i].entry)
  {
    hide Less;
    if i > 0 {
      SortedTail(r);
      LessIrreflexive(r[i].key);
      assert Less(r[0].key, r[i].key);
      FindAt(r[1..], i - 1);
    }
  }

  lemma {:induction false} FindNone(r: seq<Record>, k: Key)
    requires Sorted(r) && Above(k, r)
    ensures Find(r, k) == None
  {
    hide Less;
    if |r| > 0 {
      LessIrreflexive(k);
      SortedTail(r);
      if |r| > 1 { LessTrans(k, r[0].key, r[1].key); }
      FindNone(r[1..], k);
    }
  }

  lemma {:induction false} FindConcat(a: seq<Record>, b: seq<Record>, k: Key)
    ensures Find(a + b, k) == if Find(a, k).Some? then Find(a, k) else Find(b, k)
  {
    if |a| == 0 {
      assert a + b == b;
    } else {
      assert (a + b)[1..] == a[1..] + b;
      FindConcat(a[1..], b, k);
    }
  }

  /** A sorted table is determined by what it answers. */
  lemma {:induction false} SameAnswers(a: seq<Record>, b: seq<Record>)
    requires Sorted(a) && Sorted(b) && forall k :: Find(a, k) == Find(b, k)
    ensures a == b
  {
    hide Less;
    if |a| == 0 || |b| == 0 {
      assert |a| > 0 ==> Find(a, a[0].key).Some?;
      assert |b| > 0 ==> Find(b, b[0].key).Some?;
    } else {
      SameHeads(a, b);
      SortedTail(a);
      SortedTail(b);
      forall k ensures Find(a[1..], k) == Find(b[1..], k) {
        if k == a[0].key {
          FindNone(a[1..], k);
          FindNone(b[1..], k);
        } else {
          assert Find(a, k) == Find(b, k);
        }
      }
      SameAnswers(a[1..], b[1..]);
    }
  }

  lemma SameHeads(a: seq<Record>, b: seq<Record>)
    requires Sorted(a) && Sorted(b) && |a| > 0 && |b| > 0 && forall k :: Find(a, k) == Find(b, k)
    ensures a[0] == b[0]
  {
    hide Less;
    LessTotal(a[0].key, b[0].key);
    assert Find(a, a[0].key) == Find(b, a[0].key) && Find(a, b[0].key) == Find(b, b[0].key);
    if Less(a[0].key, b[0].key) {
      FindNone(b, a[0].key);
    } else if Less(b[0].key, a[0].key) {
      FindNone(a, b[0].key);
    }
  }

  // ---------------------------------------------------------------- searching tables, newest first

  predicate AllSorted(order: seq<Table>) { forall i :: 0 <= i < |order| ==> Sorted(order[i].records) }

  function Search(order: seq<Table>, k: Key): Option<Entry> {
    if |order| == 0 then None
    else
      var e := Find(order[0].records, k);
      if e.Some? then e else Search(order[1..], k)
  }

  lemma {:induction false} SearchConcat(a: seq<Table>, b: seq<Table>, k: Key)
    ensures Search(a + b, k) == if Search(a, k).Some? then Search(a, k) else Search(b, k)
  {
    if |a| == 0 {
      assert a + b == b;
    } else {
      assert (a + b)[1..] == a[1..] + b;
      SearchConcat(a[1..], b, k);
    }
  }

  lemma {:induction false} SearchHit(order: seq<Table>, i: nat, k: Key)
    requires i < |order| && Find(order[i].records, k).Some?
    requires forall j :: 0 <= j < i ==> Find(order[j].records, k) == None
    ensures Search(order, k) == Find(order[i].records, k)
  {
    if i > 0 {
      SearchHit(order[1..], i - 1, k);
    }
  }

  lemma {:induction false} SearchMiss(order: seq<Table>, k: Key)
    requires forall j :: 0 <= j < |order| ==> Find(order[j].records, k) == None
    ensures Search(order, k) == None
  {
    if |order| > 0 {
      SearchMiss(order[1..], k);
    }
  }

  lemma {:induction false} SearchWitness(order: seq<Table>, k: Key) returns (i: nat)
    requires Search(order, k).Some?
    ensures i < |order| && Find(order[i].records, k) == Search(order, k)
    ensures forall j :: 0 <= j < i ==> Find(order[j].records, k) == None
  {
    if Find(order[0].records, k).Some? {
      i := 0;
    } else {
      var i' := SearchWitness(order[1..], k);
      i := i' + 1;
      forall j | 0 <= j < i ensures Find(order[j].records, k) == None {
        if j > 0 { assert order[j] == order[1..][j - 1]; }
      }
    }
  }

  // ---------------------------------------------------------------- merging

  /** Two sorted lists in one; where both have a key, `a` wins. */
  function MergeTwo(a: seq<Record>, b: seq<Record>): seq<Record>
    decreases |a| + |b|
  {
    if |a| == 0 then b
    else if |b| == 0 then a
    else if a[0].key == b[0].key then [a[0]] + MergeTwo(a[1..], b[1..])
    else if Less(a[0].key, b[0].key) then [a[0]] + MergeTwo(a[1..], b)
    else [b[0]] + MergeTwo(a, b[1..])
  }

  lemma {:induction false} MergeTwoCorrect(a: seq<Record>, b: seq<Record>, k: Key)
    requires Sorted(a) && Sorted(b)
    ensures Sorted(MergeTwo(a, b))
    ensures Find(MergeTwo(a, b), k) == if Find(a, k).Some? then Find(a, k) else Find(b, k)
    decreases |a| + |b|
  {
    hide Less;
    if |a| > 0 && |b| > 0 {
      SortedTail(a);
      SortedTail(b);
      LessTotal(a[0].key, b[0].key);
      if a[0].key == b[0].key {
        MergeTwoCorrect(a[1..], b[1..], k);
        SortedCons(a[0], MergeTwo(a[1..], b[1..]));
      } else if Less(a[0].key, b[0].key) {
        MergeTwoCorrect(a[1..], b, k);
        SortedCons(a[0], MergeTwo(a[1..], b));
      } else {
        MergeTwoCorrect(a, b[1..], k);
        SortedCons(b[0], MergeTwo(a, b[1..]));
        FindNone(a, b[0].key);
      }
    }
  }

  /** All tables in one, newest first: the simple form of a compaction. */
  function MergeAll(order: seq<Table>): seq<Record> {
    if |order| == 0 then [] else MergeTwo(order[0].records, MergeAll(order[1..]))
  }

  /** The merged table answers every key as a search through the tables would. */
  lemma {:induction false} MergeAllCorrect(order: seq<Table>, k: Key)
    requires AllSorted(order)
    ensures Sorted(MergeAll(order)) && Find(MergeAll(order), k) == Search(order, k)
  {
    hide MergeTwo;
    if |order| > 0 {
      MergeAllCorrect(order[1..], k);
      MergeTwoCorrect(order[0].records, MergeAll(order[1..]), k);
    }
  }

  /** The merged table has exactly the keys that some input has. */
  lemma {:induction false} MergeKeys(order: seq<Table>, k: Key)
    requires AllSorted(order)
    ensures Holds(MergeAll(order), k) <==> exists i :: 0 <= i < |order| && Holds(order[i].records, k)
  {
    hide Find, Sorted, MergeAll, Holds;
    MergeAllCorrect(order, k);
    FindHolds(MergeAll(order), k);
    forall i | 0 <= i < |order| ensures Find(order[i].records, k).Some? <==> Holds(order[i].records, k) {
      FindHolds(order[i].records, k);
    }
    if Search(order, k).Some? {
      var i := SearchWitness(order, k);
    } else if exists i :: 0 <= i < |order| && Holds(order[i].records, k) {
      var i :| 0 <= i < |order| && Holds(order[i].records, k);
      NoneFound(order, i, k);
    }
  }

  lemma {:induction false} NoneFound(order: seq<Table>, i: nat, k: Key)
    requires Search(order, k) == None && i < |order|
    ensures Find(order[i].records, k) == None
  {
    if i > 0 { NoneFound(order[1..], i - 1, k); }
  }

  // ---------------------------------------------------------------- listing a memtable

  function Lookup(data: map<Key, Entry>, k: Key): Option<Entry> {
    if k in data then Some(data[k]) else None
  }

  ghost predicate IsListing(data: map<Key, Entry>, r: seq<Record>) {
    Sorted(r) && forall k :: Find(r, k) == Lookup(data, k)
  }

  /** The memtable's entries in key order. */
  ghost function Listing(data: map<Key, Entry>): (r: seq<Record>)
    ensures IsListing(data, r)
    decreases data.Keys
  {
    if data == map[] then []
    else
      var k :| k in data;
      var rest := Listing(data - {k});
      ListingStep(data, k, rest);
      MergeTwo([Record(k, data[k])], rest)
  }

  lemma ListingStep(data: map<Key, Entry>, k: Key, rest: seq<Record>)
    requires k in data && IsListing(data - {k}, rest)
    ensures IsListing(data, MergeTwo([Record(k, data[k])], rest))
  {
    hide MergeTwo;
    var one := [Record(k, data[k])];
    assert Sorted(one);
    hide Sorted;
    MergeTwoCorrect(one, rest, k);
    forall j ensures Find(MergeTwo(one, rest), j) == Lookup(data, j) {
      MergeTwoCorrect(one, rest, j);
      assert Find(one[1..], j) == None;
    }
  }

  lemma ListingUnique(data: map<Key, Entry>, r: seq<Record>)
    requires IsListing(data, r)
    ensures r == Listing(data)
  {
    hide Sorted;
    SameAnswers(r, Listing(data));
  }
}
