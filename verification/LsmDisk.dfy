/** Table ids and recency: when loading every table by id, as a reopen does, is the same as searching the levels. */
module StoreDisk {
  import opened Commands
  import opened Tables
  import opened KWayMerge
  import opened Store
  import opened StoreReads

  /** Newer tables have larger ids. */
  predicate Descending(order: seq<Table>) { forall i, j :: 0 <= i < j < |order| ==> order[i].id > order[j].id }

  predicate FilesMatch(order: seq<Table>, files: map<nat, seq<Record>>) {
    forall t :: t in order ==> t.id in files && files[t.id] == t.records
  }

  predicate FilesBelow(files: map<nat, seq<Record>>, nextId: nat) {
    forall f :: f in files ==> f < nextId && Sorted(files[f])
  }

  /** Some live table, not older than file `f`, has the key. */
  predicate CoveredBy(order: seq<Table>, f: nat, k: Key) {
    exists t :: t in order && t.id >= f && Find(t.records, k).Some?
  }

  /** A file left over from a merge hides nothing: whatever it holds, a newer live table holds too. */
  ghost predicate Covered(order: seq<Table>, files: map<nat, seq<Record>>) {
    forall f, k :: f in files && Find(files[f], k).Some? ==> CoveredBy(order, f, k)
  }

  ghost predicate DiskOk(s: Store) {
    |s.levels| > 0 ==>
      && Descending(Order(s.levels)) && FilesMatch(Order(s.levels), s.files)
      && FilesBelow(s.files, s.nextId) && Covered(Order(s.levels), s.files)
  }

  // ---------------------------------------------------------------- flush

  lemma FlushDisk(s: Store)
    requires Wf(s) && DiskOk(s)
    ensures DiskOk(Flush(s))
  {
    hide Sorted, Find, Order, Reverse, ReplayWal;
    if s.data != map[] && |s.levels| > 0 {
      var t, s', order := Table(s.nextId, Listing(s.data)), Flush(s), Order(s.levels);
      assert s'.levels[1..] == s.levels[1..];
      FlushedLevels(s.levels, t);
      CoverMore(order, s.files, t);
    }
  }

  lemma FlushedLevels(levels: seq<seq<Table>>, t: Table)
    requires |levels| > 0
    ensures Order(levels[0 := levels[0] + [t]]) == [t] + Order(levels)
  {
    hide Reverse;
    assert levels[0 := levels[0] + [t]][1..] == levels[1..];
    FlushedOrder(levels[0], t, Order(levels[1..]));
  }

  lemma CoverMore(order: seq<Table>, files: map<nat, seq<Record>>, t: Table)
    requires Covered(order, files) && t.id !in files
    ensures Covered([t] + order, files[t.id := t.records])
  {
    hide Find;
    var order', files' := [t] + order, files[t.id := t.records];
    forall f, k | f in files' && Find(files'[f], k).Some? ensures CoveredBy(order', f, k) {
      if f == t.id {
        assert t in order';
      } else {
        assert CoveredBy(order, f, k);
        var x :| x in order && x.id >= f && Find(x.records, k).Some?;
        assert x in order';
      }
    }
  }

  // ---------------------------------------------------------------- one compaction

  lemma {:induction false} OrderEmpty(levels: seq<seq<Table>>)
    ensures Order(levels) == [] <==> forall i :: 0 <= i < |levels| ==> levels[i] == []
  {
    if |levels| > 0 {
      OrderEmpty(levels[1..]);
      assert Order(levels) == [] <==> Reverse(levels[0]) == [] && Order(levels[1..]) == [];
    }
  }

  /** What a compaction that takes place does to the search order. */
  lemma CompactOrder(s: Store, i: nat, kept: set<nat>)
    requires i + 1 < |s.levels| && s.levels[i] != []
    ensures var front, back := Order(s.levels[..i]), Order(s.levels[i + 2..]);
            var inputs := Ranked(s.levels[i] + s.levels[i + 1], |s.levels[i]|);
            && Order(s.levels) == front + inputs + back
            && Order(CompactLevel(s, i, kept).levels) == front + [Merged(s.levels[i], s.levels[i + 1], s.nextId)] + back
  {
    hide Order, Ranked, MergeAll;
    var cur, next := s.levels[i], s.levels[i + 1];
    assert cur + [] == cur;
    PublishOrder(s.levels, i, cur, [], next, Merged(cur, next, s.nextId));
    assert Reverse([]) == [];
    assert Order(s.levels[..i]) + Reverse([]) == Order(s.levels[..i]);
  }

  /** The merged table gets the largest id, so the order survives exactly when nothing newer stands in front of it. */
  lemma MergedInPlace(front: seq<Table>, inputs: seq<Table>, back: seq<Table>, t: Table)
    requires Descending(front + inputs + back) && forall x :: x in front + inputs + back ==> x.id < t.id
    ensures Descending(front + [t] + back) <==> front == []
  {
    var before, after := front + inputs + back, front + [t] + back;
    if |front| > 0 {
      assert before[0] == front[0] && before[0] in before;
      assert after[0] == front[0] && after[|front|] == t;
    } else {
      forall i, j | 0 <= i < j < |after| ensures after[i].id > after[j].id {
        assert after[j] == before[|inputs| + j - 1] && before[|inputs| + j - 1] in before;
        if i > 0 {
          assert after[i] == before[|inputs| + i - 1];
        }
      }
    }
  }

  lemma RestStays(front: seq<Table>, inputs: seq<Table>, back: seq<Table>, x: Table)
    requires Descending(front + inputs + back) && x in front + back
    ensures x.id !in Ids(inputs) && x in front + inputs + back
  {
    var all := front + inputs + back;
    var a := if x in front then Where(front, x) else |front| + |inputs| + Where(back, x);
    assert all[a] == x;
    forall y | y in inputs ensures y.id != x.id {
      var b := |front| + Where(inputs, y);
      assert all[b] == y;
    }
  }

  ghost function Where<T>(s: seq<T>, x: T): (i: nat)
    requires x in s
    ensures i < |s| && s[i] == x
  {
    var i :| 0 <= i < |s| && s[i] == x; i
  }

  lemma SameIds(cur: seq<Table>, next: seq<Table>)
    ensures Ids(Ranked(cur + next, |cur|)) == Ids(cur + next)
  {
    var all, ranked := cur + next, Ranked(cur + next, |cur|);
    forall x | x in all ensures x in ranked {
      assert ranked[Rank(Where(all, x), |cur|, |all|)] == x;
    }
    forall x | x in ranked ensures x in all {
      var p := Where(ranked, x);
      var s := if p < |cur| then |cur| - 1 - p else |all| - 1 - (p - |cur|);
      assert Rank(s, |cur|, |all|) == p;
      assert all[s] == x;
    }
  }

  lemma CompactedFiles(front: seq<Table>, inputs: seq<Table>, back: seq<Table>, t: Table,
                       files: map<nat, seq<Record>>, gone: set<nat>)
    requires Descending(front + inputs + back) && FilesMatch(front + inputs + back, files) && t.id !in files
    requires gone <= Ids(inputs)
    ensures FilesMatch(front + [t] + back, files[t.id := t.records] - gone)
  {
    var files' := files[t.id := t.records] - gone;
    assert forall y :: y in inputs ==> y in front + inputs + back;
    forall x | x in front + [t] + back ensures x.id in files' && files'[x.id] == x.records {
      if x in front + back {
        RestStays(front, inputs, back, x);
      }
    }
  }

  lemma CompactedCover(front: seq<Table>, inputs: seq<Table>, back: seq<Table>, t: Table,
                       files: map<nat, seq<Record>>, gone: set<nat>)
    requires Covered(front + inputs + back, files) && AllSorted(inputs) && t.records == MergeAll(inputs)
    requires forall f :: f in files ==> f < t.id
    ensures Covered(front + [t] + back, files[t.id := t.records] - gone)
  {
    hide Find, Sorted, MergeAll;
    var before, after, files' := front + inputs + back, front + [t] + back, files[t.id := t.records] - gone;
    assert t in after;
    forall f, k | f in files' && Find(files'[f], k).Some? ensures CoveredBy(after, f, k) {
      if f != t.id {
        assert CoveredBy(before, f, k);
        var x :| x in before && x.id >= f && Find(x.records, k).Some?;
        if x in inputs {
          MergeHolds(inputs, x, k);
        } else {
          assert x in after;
        }
      }
    }
  }

  lemma MergeHolds(inputs: seq<Table>, x: Table, k: Key)
    requires AllSorted(inputs) && x in inputs && Find(x.records, k).Some?
    ensures Find(MergeAll(inputs), k).Some?
  {
    hide Find, Sorted, MergeAll;
    MergeAllCorrect(inputs, k);
    if Search(inputs, k) == None {
      NoneFound(inputs, Where(inputs, x), k);
    }
  }

  /** A compaction that takes place keeps recency and id order the same exactly when every level above is empty. */
  lemma CompactDisk(s: Store, i: nat, kept: set<nat>)
    requires Wf(s) && DiskOk(s) && i + 1 < |s.levels| && s.levels[i] != []
    ensures DiskOk(CompactLevel(s, i, kept)) <==> forall m :: 0 <= m < i ==> s.levels[m] == []
  {
    hide Order, Ranked, MergeAll, Sorted, Find, ReplayWal;
    var cur, next := s.levels[i], s.levels[i + 1];
    var s', t := CompactLevel(s, i, kept), Merged(cur, next, s.nextId);
    var front, inputs, back := Order(s.levels[..i]), Ranked(cur + next, |cur|), Order(s.levels[i + 2..]);
    CompactOrder(s, i, kept);
    OrderEmpty(s.levels[..i]);
    assert (forall m :: 0 <= m < |s.levels[..i]| ==> s.levels[..i][m] == [])
           <==> forall m :: 0 <= m < i ==> s.levels[m] == [];
    MergedInPlace(front, inputs, back, t);
    SameIds(cur, next);
    RankedSorted(cur + next, |cur|);
    MergeAllCorrect(inputs, []);
    hide Merged, AllSorted;
    var gone := Ids(cur + next) - kept;
    CompactedFiles(front, inputs, back, t, s.files, gone);
    assert AllSorted(inputs);
    assert t.records == MergeAll(inputs) by { MergedRecords(cur, next, s.nextId); }
    CompactedCover(front, inputs, back, t, s.files, gone);
    assert FilesBelow(s'.files, s'.nextId);
  }

  lemma MergedRecords(cur: seq<Table>, next: seq<Table>, id: nat)
    ensures Merged(cur, next, id).records == MergeAll(Ranked(cur + next, |cur|)) && Merged(cur, next, id).id == id
  {}
}
